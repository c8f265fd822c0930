/**
 * The day-by-day itinerary editor of the create-itinerary page: the draft
 * (`formData`), the handlers that change it, the three submit checks and the
 * payload sent to the server.
 *
 * Dates are the `YYYY-MM-DD` strings of the date inputs, compared with
 * JavaScript's string `<`; the empty string means "not set". Today's date is a
 * parameter instead of a clock read.
 */
module CreateItinerary {
  import opened Optional
  import opened Strings

  /** One row of a day: `{time, activity, location, notes}`. */
  datatype Item = Item(time: string, activity: string, location: string, notes: string)

  /** One entry of `activities`: its day number and its rows. */
  datatype Day = Day(day: int, items: seq<Item>)

  datatype Budget = Budget(amount: string, currency: string)

  /** The `formData` state of the page. */
  datatype Draft = Draft(
    title: string,
    destination: string,
    durationDays: int,
    startDate: string,
    endDate: string,
    budget: Budget,
    isPublic: bool,
    activities: seq<Day>)

  /** A guide picked in the destination box: its title and `location.city`. */
  datatype GuideRef = GuideRef(title: string, city: Option<string>)

  /** A guide recommendation chosen for import, tagged with its panel's kind. */
  datatype Recommendation = Recommendation(name: string, description: Option<string>, kind: string)

  /** The four columns of a row that `handleActivityChange` can set. */
  datatype ItemField = Time | Activity | Location | Notes

  /** The inputs wired to `handleChange`. */
  datatype FormInput =
    | TitleInput(title: string)
    | BudgetAmountInput(amount: string)
    | BudgetCurrencyInput(currency: string)
    | PublicSwitch(checked: bool)

  /** The row every new day and every "Add Activity" starts with. */
  const BlankItem := Item("09:00", "", "", "")

  /** A new day numbered `n` holding one blank row. */
  function NewDay(n: int): Day {
    Day(n, [BlankItem])
  }

  /** The draft the page starts from: one day with one blank row. */
  const InitialDraft := Draft("", "", 1, "", "", Budget("", "USD"), false, [NewDay(1)])

  /** `activities[i].day == i + 1` for every day. */
  predicate Numbered(acts: seq<Day>) {
    forall i :: 0 <= i < |acts| ==> acts[i].day == i + 1
  }

  /** Every day keeps at least one row. */
  predicate NoEmptyDay(acts: seq<Day>) {
    forall i :: 0 <= i < |acts| ==> |acts[i].items| >= 1
  }

  predicate WellFormed(acts: seq<Day>) {
    Numbered(acts) && NoEmptyDay(acts)
  }

  /** A set end date is never before a set start date. */
  predicate DatesOrdered(startDate: string, endDate: string) {
    startDate == "" || endDate == "" || !Less(endDate, startDate)
  }

  /** What every handler of the editor keeps true of the draft. */
  predicate Consistent(d: Draft) {
    && d.durationDays == |d.activities|
    && WellFormed(d.activities)
    && DatesOrdered(d.startDate, d.endDate)
  }

  lemma InitialDraftConsistent()
    ensures Consistent(InitialDraft)
    ensures InitialDraft.activities[0].items == [BlankItem]
  {
  }

  // ---------------------------------------------------------------------
  // Form fields and dates
  // ---------------------------------------------------------------------

  /** `handleChange`: a dotted name updates one budget field, a checkbox stores `checked`. */
  function WithInput(d: Draft, input: FormInput): (r: Draft)
    ensures input.TitleInput? ==> r == d.(title := input.title)
    ensures input.BudgetAmountInput? ==> r == d.(budget := d.budget.(amount := input.amount))
    ensures input.BudgetCurrencyInput? ==> r == d.(budget := d.budget.(currency := input.currency))
    ensures input.PublicSwitch? ==> r == d.(isPublic := input.checked)
    ensures Consistent(d) ==> Consistent(r)
  {
    match input
    case TitleInput(t) => d.(title := t)
    case BudgetAmountInput(a) => d.(budget := Budget(a, d.budget.currency))
    case BudgetCurrencyInput(c) => d.(budget := Budget(d.budget.amount, c))
    case PublicSwitch(b) => d.(isPublic := b)
  }

  /**
   * `handleStartDateChange`: the new start date is stored; a set end date
   * earlier than it is pulled up to it.
   */
  function WithStartDate(d: Draft, newStart: string): (r: Draft)
    ensures r.startDate == newStart
    ensures d.endDate != "" && Less(d.endDate, newStart) ==> r.endDate == newStart
    ensures !(d.endDate != "" && Less(d.endDate, newStart)) ==> r.endDate == d.endDate
    ensures r == d.(startDate := r.startDate, endDate := r.endDate)
    ensures DatesOrdered(r.startDate, r.endDate)
  {
    var newEnd := if d.endDate != "" && Less(d.endDate, newStart) then newStart else d.endDate;
    LessIrreflexive(newStart);
    d.(startDate := newStart, endDate := newEnd)
  }

  const EndBeforeStartMessage := "End date must be same or after start date"

  /**
   * `handleEndDateChange`: an end date before a set start date is refused with
   * an error and the draft is left alone; otherwise it is stored and the error
   * cleared. The result is the new draft and the new error message.
   */
  function EndDateChange(d: Draft, error: string, newEnd: string): (r: (Draft, string))
    ensures d.startDate != "" && Less(newEnd, d.startDate) ==> r == (d, EndBeforeStartMessage)
    ensures !(d.startDate != "" && Less(newEnd, d.startDate)) ==> r == (d.(endDate := newEnd), "")
    ensures DatesOrdered(d.startDate, d.endDate) ==> DatesOrdered(r.0.startDate, r.0.endDate)
  {
    if d.startDate != "" && Less(newEnd, d.startDate) then (d, EndBeforeStartMessage)
    else (d.(endDate := newEnd), "")
  }

  /** Once a start date is set, clearing the end date is refused: "" sorts before any set date. */
  lemma ClearingEndDateRefused(d: Draft, error: string)
    requires d.startDate != ""
    ensures EndDateChange(d, error, "") == (d, EndBeforeStartMessage)
  {
  }

  // ---------------------------------------------------------------------
  // Days and rows
  // ---------------------------------------------------------------------

  /** Days numbered `first` to `last`, each with one blank row. */
  function FreshDays(first: int, last: int): (r: seq<Day>)
    ensures |r| == if first <= last then last - first + 1 else 0
    ensures forall i :: 0 <= i < |r| ==> r[i] == NewDay(first + i)
    decreases last - first
  {
    if first > last then [] else [NewDay(first)] + FreshDays(first + 1, last)
  }

  /** `parseInt(value) || 1`: an unparsable input (`None`) and zero both become one day. */
  function ParsedDuration(parsed: Option<int>): (days: int)
    ensures parsed == None || parsed == Some(0) ==> days == 1
    ensures parsed.Some? && parsed.value != 0 ==> days == parsed.value
  {
    if parsed.Some? && parsed.value != 0 then parsed.value else 1
  }

  /**
   * Where `slice(0, end)` stops on a list of `len` elements: a negative end
   * counts back from the end of the list, and the result is clamped to the list.
   */
  function SliceEnd(end: int, len: nat): (k: nat)
    ensures k <= len
    ensures 0 <= end <= len ==> k == end
    ensures end > len ==> k == len
    ensures end < 0 ==> k == if len + end >= 0 then len + end else 0
  {
    if end < 0 then (if len + end >= 0 then len + end else 0)
    else if end <= len then end
    else len
  }

  /**
   * The activities after the duration becomes `days`: a longer duration
   * appends blank days numbered `old + 1 .. days`; a shorter one keeps the
   * first days, and a negative one, as `slice(0, days)` does, drops that many
   * days from the end.
   */
  function Resized(acts: seq<Day>, days: int): (r: seq<Day>)
    ensures days >= 0 ==> |r| == days
    ensures days < 0 ==> |r| == if |acts| + days >= 0 then |acts| + days else 0
    ensures forall i :: 0 <= i < |acts| && i < |r| ==> r[i] == acts[i]
    ensures forall i :: |acts| <= i < |r| ==> r[i] == NewDay(i + 1)
    ensures WellFormed(acts) ==> WellFormed(r)
  {
    if days > |acts| then acts + FreshDays(|acts| + 1, days) else acts[..SliceEnd(days, |acts|)]
  }

  /**
   * A negative duration, which a typed "-2" gives since `parseInt("-2") || 1`
   * is -2, is stored as it is while the days are cut: the draft stops being
   * consistent.
   */
  lemma NegativeDurationBreaksConsistent(d: Draft, n: int)
    requires Consistent(d) && n < 0
    ensures var r := d.(durationDays := ParsedDuration(Some(n)), activities := Resized(d.activities, ParsedDuration(Some(n))));
      r.durationDays == n && |r.activities| <= |d.activities| && !Consistent(r)
  {
  }

  /** The `setFormData` updater of `handleDurationChange`, with its `for` loop of pushes. */
  method ResizeDays(prev: seq<Day>, days: int) returns (activities: seq<Day>)
    ensures activities == Resized(prev, days)
  {
    var currentDays := |prev|;
    activities := prev;
    if days > currentDays {
      var i := currentDays + 1;
      while i <= days
        invariant currentDays + 1 <= i <= days + 1
        invariant activities == prev + FreshDays(currentDays + 1, i - 1)
      {
        activities := activities + [NewDay(i)];
        i := i + 1;
      }
    } else if days < currentDays {
      activities := activities[..SliceEnd(days, currentDays)];
    }
  }

  /** A row with one column overwritten. */
  function WithField(item: Item, field: ItemField, value: string): (r: Item)
    ensures r.time == (if field == Time then value else item.time)
    ensures r.activity == (if field == Activity then value else item.activity)
    ensures r.location == (if field == Location then value else item.location)
    ensures r.notes == (if field == Notes then value else item.notes)
  {
    match field
    case Time => item.(time := value)
    case Activity => item.(activity := value)
    case Location => item.(location := value)
    case Notes => item.(notes := value)
  }

  /** `handleActivityChange`: one column of one row is overwritten, nothing else changes. */
  function WithItemField(acts: seq<Day>, dayIndex: int, itemIndex: int, field: ItemField, value: string): (r: seq<Day>)
    requires 0 <= dayIndex < |acts| && 0 <= itemIndex < |acts[dayIndex].items|
    ensures |r| == |acts|
    ensures forall i :: 0 <= i < |acts| && i != dayIndex ==> r[i] == acts[i]
    ensures r[dayIndex].day == acts[dayIndex].day
    ensures |r[dayIndex].items| == |acts[dayIndex].items|
    ensures forall j :: 0 <= j < |acts[dayIndex].items| && j != itemIndex ==> r[dayIndex].items[j] == acts[dayIndex].items[j]
    ensures r[dayIndex].items[itemIndex] == WithField(acts[dayIndex].items[itemIndex], field, value)
    ensures WellFormed(acts) ==> WellFormed(r)
  {
    var changed := WithField(acts[dayIndex].items[itemIndex], field, value);
    acts[dayIndex := acts[dayIndex].(items := acts[dayIndex].items[itemIndex := changed])]
  }

  /** `addActivity`: one blank row is appended to the chosen day and no other day changes. */
  function WithActivityAdded(acts: seq<Day>, dayIndex: int): (r: seq<Day>)
    requires 0 <= dayIndex < |acts|
    ensures |r| == |acts|
    ensures forall i :: 0 <= i < |acts| && i != dayIndex ==> r[i] == acts[i]
    ensures r[dayIndex].day == acts[dayIndex].day
    ensures |r[dayIndex].items| == |acts[dayIndex].items| + 1
    ensures r[dayIndex].items[..|acts[dayIndex].items|] == acts[dayIndex].items
    ensures r[dayIndex].items[|acts[dayIndex].items|] == BlankItem
    ensures WellFormed(acts) ==> WellFormed(r)
  {
    acts[dayIndex := acts[dayIndex].(items := acts[dayIndex].items + [BlankItem])]
  }

  /**
   * `removeActivity`: a day with a single row is left alone; otherwise exactly
   * the row at `itemIndex` is removed. No day ever drops below one row.
   */
  function WithActivityRemoved(acts: seq<Day>, dayIndex: int, itemIndex: int): (r: seq<Day>)
    requires 0 <= dayIndex < |acts| && 0 <= itemIndex < |acts[dayIndex].items|
    ensures |acts[dayIndex].items| <= 1 ==> r == acts
    ensures |r| == |acts|
    ensures forall i :: 0 <= i < |acts| && i != dayIndex ==> r[i] == acts[i]
    ensures r[dayIndex].day == acts[dayIndex].day
    ensures |acts[dayIndex].items| > 1 ==>
      r[dayIndex].items == acts[dayIndex].items[..itemIndex] + acts[dayIndex].items[itemIndex + 1..]
    ensures |r[dayIndex].items| >= 1
    ensures WellFormed(acts) ==> WellFormed(r)
  {
    var items := acts[dayIndex].items;
    if |items| > 1 then acts[dayIndex := acts[dayIndex].(items := items[..itemIndex] + items[itemIndex + 1..])]
    else acts
  }

  /** The row an imported recommendation becomes. */
  function RecommendationItem(rec: Recommendation, guide: Option<GuideRef>): (item: Item)
    ensures item.time == "09:00" && item.activity == rec.name
    ensures item.notes == rec.kind + ": " + OrElse(rec.description, "")
    ensures item.location == (if guide.Some? then OrElse(guide.value.city, "") else "")
  {
    var city := if guide.Some? then OrElse(guide.value.city, "") else "";
    Item("09:00", rec.name, city, rec.kind + ": " + OrElse(rec.description, ""))
  }

  /** The untouched placeholder: exactly one row whose activity and location are both empty. */
  predicate IsPlaceholder(items: seq<Item>) {
    |items| == 1 && items[0].activity == "" && items[0].location == ""
  }

  /**
   * The import step of `confirmAddRecommendation`: a day holding only the
   * placeholder has it overwritten; any other day gets the row appended.
   */
  function Imported(acts: seq<Day>, dayIndex: int, item: Item): (r: seq<Day>)
    requires 0 <= dayIndex < |acts|
    ensures |r| == |acts|
    ensures forall i :: 0 <= i < |acts| && i != dayIndex ==> r[i] == acts[i]
    ensures r[dayIndex].day == acts[dayIndex].day
    ensures IsPlaceholder(acts[dayIndex].items) ==> r[dayIndex].items == [item]
    ensures !IsPlaceholder(acts[dayIndex].items) ==> r[dayIndex].items == acts[dayIndex].items + [item]
    ensures WellFormed(acts) ==> WellFormed(r)
  {
    var items := acts[dayIndex].items;
    if IsPlaceholder(items) then acts[dayIndex := acts[dayIndex].(items := items[0 := item])]
    else acts[dayIndex := acts[dayIndex].(items := items + [item])]
  }

  /** `handleAddDay`: a blank day numbered one past the last is appended. */
  function WithDayAdded(acts: seq<Day>): (r: seq<Day>)
    ensures |r| == |acts| + 1
    ensures r[..|acts|] == acts && r[|acts|] == NewDay(|acts| + 1)
    ensures WellFormed(acts) ==> WellFormed(r)
  {
    acts + [NewDay(|acts| + 1)]
  }

  /** The `map((day, index) => ({...day, day: index + 1}))` re-indexing. */
  function Renumbered(acts: seq<Day>): (r: seq<Day>)
    ensures |r| == |acts| && Numbered(r)
    ensures forall i :: 0 <= i < |acts| ==> r[i].items == acts[i].items
  {
    seq(|acts|, i requires 0 <= i < |acts| => acts[i].(day := i + 1))
  }

  /**
   * `handleRemoveDay`: the day at `dayIndex` is deleted, the others keep their
   * rows and order, and all are renumbered `1..n` without gaps.
   */
  function WithDayRemoved(acts: seq<Day>, dayIndex: int): (r: seq<Day>)
    requires 0 <= dayIndex < |acts|
    ensures |r| == |acts| - 1 && Numbered(r)
    ensures forall i :: 0 <= i < dayIndex ==> r[i].items == acts[i].items
    ensures forall i :: dayIndex <= i < |r| ==> r[i].items == acts[i + 1].items
    ensures NoEmptyDay(acts) ==> NoEmptyDay(r)
  {
    Renumbered(acts[..dayIndex] + acts[dayIndex + 1..])
  }

  /** Adding a day is growing the duration by one. */
  lemma AddDayIsGrowByOne(acts: seq<Day>)
    ensures WithDayAdded(acts) == Resized(acts, |acts| + 1)
  {
    var a := WithDayAdded(acts);
    var b := Resized(acts, |acts| + 1);
    assert forall i :: 0 <= i < |acts| ==> a[i] == acts[i] == b[i];
  }

  /**
   * An end-to-end editing session: from the initial draft, grow
   * to three days, add a row to the second day, remove the first day. Two days
   * remain, numbered 1 and 2, and the first of them has two rows.
   */
  lemma ScenarioGrowAddRemove()
    ensures var acts := WithDayRemoved(WithActivityAdded(Resized(InitialDraft.activities, 3), 1), 0);
      |acts| == 2 && acts[0].day == 1 && acts[1].day == 2 && |acts[0].items| == 2
  {
    var grown := Resized(InitialDraft.activities, 3);
    assert |grown[1].items| == 1;
  }

  // ---------------------------------------------------------------------
  // Submit
  // ---------------------------------------------------------------------

  const MissingFieldsMessage := "Please fill in title and destination"
  const PastStartMessage := "Start date must be today or a future date"

  /**
   * The three submit checks, in order; the first that fails gives its message
   * and nothing is sent.
   */
  function SubmitError(d: Draft, today: string): (r: Option<string>)
    ensures r == Some(MissingFieldsMessage) <==> d.title == "" || d.destination == ""
    ensures r == Some(PastStartMessage) <==>
      d.title != "" && d.destination != "" && d.startDate != "" && Less(d.startDate, today)
    ensures r == Some(EndBeforeStartMessage) <==>
      && d.title != "" && d.destination != ""
      && !(d.startDate != "" && Less(d.startDate, today))
      && d.startDate != "" && d.endDate != "" && Less(d.endDate, d.startDate)
    ensures r == None <==>
      && d.title != "" && d.destination != ""
      && !(d.startDate != "" && Less(d.startDate, today))
      && DatesOrdered(d.startDate, d.endDate)
  {
    if d.title == "" || d.destination == "" then Some(MissingFieldsMessage)
    else if d.startDate != "" && Less(d.startDate, today) then Some(PastStartMessage)
    else if d.startDate != "" && d.endDate != "" && Less(d.endDate, d.startDate) then Some(EndBeforeStartMessage)
    else None
  }

  /** The date handlers never let a draft reach the third check. */
  lemma ThirdCheckUnreachable(d: Draft, today: string)
    requires Consistent(d)
    ensures SubmitError(d, today) != Some(EndBeforeStartMessage)
  {
  }

  /** Two concrete submits: no title is refused; a trip from today to today is accepted. */
  lemma SubmitExamples(today: string, d: Draft)
    requires today != ""
    ensures SubmitError(d.(title := "", destination := "Paris"), today) == Some(MissingFieldsMessage)
    ensures SubmitError(d.(title := "Trip", destination := "Paris", startDate := today, endDate := today), today) == None
  {
    LessIrreflexive(today);
  }

  /** The body of the create request. */
  datatype Payload = Payload(
    title: string,
    destination: string,
    durationDays: int,
    startDate: Option<string>,
    endDate: Option<string>,
    budget: Option<Budget>,
    isPublic: bool,
    activities: seq<Day>)

  /** An empty string field is left out of the request, a set one is sent as is. */
  function Unless(s: string): (o: Option<string>)
    ensures o == None <==> s == ""
    ensures o.Some? ==> o.value == s
  {
    if s == "" then None else Some(s)
  }

  /**
   * The request body: `budget` is left out when its amount is empty, empty
   * dates are left out, every other field is copied unchanged.
   */
  function ToPayload(d: Draft): (p: Payload)
    ensures p.budget == None <==> d.budget.amount == ""
    ensures p.budget.Some? ==> p.budget.value == d.budget
    ensures p.startDate == Unless(d.startDate) && p.endDate == Unless(d.endDate)
    ensures p.title == d.title && p.destination == d.destination && p.durationDays == d.durationDays
    ensures p.isPublic == d.isPublic && p.activities == d.activities
  {
    Payload(d.title, d.destination, d.durationDays, Unless(d.startDate), Unless(d.endDate),
            if d.budget.amount != "" then Some(d.budget) else None, d.isPublic, d.activities)
  }

  /** The draft a payload describes, given the currency a dropped budget had. */
  function DraftOf(p: Payload, currency: string): Draft {
    Draft(p.title, p.destination, p.durationDays, p.startDate.GetOr(""), p.endDate.GetOr(""),
          p.budget.GetOr(Budget("", currency)), p.isPublic, p.activities)
  }

  /** The payload loses nothing but the currency of an empty budget. */
  lemma {:induction false} PayloadRoundTrip(d: Draft)
    ensures DraftOf(ToPayload(d), d.budget.currency) == d
  {
    var p := ToPayload(d);
    assert p.startDate.GetOr("") == d.startDate;
    assert p.endDate.GetOr("") == d.endDate;
    assert p.budget.GetOr(Budget("", d.budget.currency)) == d.budget;
  }

  /** How the create request ended. */
  datatype SubmitOutcome = Created | Rejected(serverMessage: Option<string>)

  // ---------------------------------------------------------------------
  // The page
  // ---------------------------------------------------------------------

  /** The editor's state: the draft and the page state the handlers use. */
  class Editor {
    var formData: Draft
    var error: string
    var selectedGuide: Option<GuideRef>
    var selectedRecommendation: Option<Recommendation>
    var selectedDayToAdd: int
    var openAddDialog: bool

    ghost predicate Valid()
      reads this
    {
      Consistent(formData)
    }

    constructor ()
      ensures Valid()
      ensures formData == InitialDraft && error == ""
      ensures selectedGuide == None && selectedRecommendation == None
      ensures selectedDayToAdd == 1 && !openAddDialog
    {
      formData := InitialDraft;
      error := "";
      selectedGuide := None;
      selectedRecommendation := None;
      selectedDayToAdd := 1;
      openAddDialog := false;
    }

    method HandleChange(input: FormInput)
      requires Valid()
      modifies this`formData
      ensures Valid()
      ensures formData == WithInput(old(formData), input)
    {
      formData := WithInput(formData, input);
    }

    /** `handleDestinationChange`: a picked guide gives its title, clearing the box gives "". */
    method HandleDestinationChange(newValue: Option<GuideRef>)
      requires Valid()
      modifies this`formData, this`selectedGuide
      ensures Valid()
      ensures formData == old(formData).(destination := if newValue.Some? then newValue.value.title else "")
      ensures selectedGuide == newValue
    {
      if newValue.Some? {
        formData := formData.(destination := newValue.value.title);
      } else {
        formData := formData.(destination := "");
      }
      selectedGuide := newValue;
    }

    method HandleStartDateChange(newStart: string)
      requires Valid()
      modifies this`formData
      ensures Valid()
      ensures formData == WithStartDate(old(formData), newStart)
    {
      formData := WithStartDate(formData, newStart);
    }

    method HandleEndDateChange(newEnd: string)
      requires Valid()
      modifies this`formData, this`error
      ensures Valid()
      ensures (formData, error) == EndDateChange(old(formData), old(error), newEnd)
    {
      if formData.startDate != "" && Less(newEnd, formData.startDate) {
        error := EndBeforeStartMessage;
        return;
      }
      error := "";
      formData := formData.(endDate := newEnd);
    }

    /** `handleDurationChange`; `parsed` is `parseInt` of the input, `None` when it is not a number. */
    method HandleDurationChange(parsed: Option<int>)
      modifies this`formData
      ensures formData == old(formData).(durationDays := ParsedDuration(parsed),
                                         activities := Resized(old(formData.activities), ParsedDuration(parsed)))
      ensures old(Valid()) && ParsedDuration(parsed) >= 1 ==> Valid()
      ensures ParsedDuration(parsed) >= 1 ==> formData.durationDays == |formData.activities| >= 1
      ensures ParsedDuration(parsed) < 0 ==> !Valid()
    {
      var days := ParsedDuration(parsed);
      var activities := ResizeDays(formData.activities, days);
      formData := formData.(durationDays := days, activities := activities);
    }

    method HandleActivityChange(dayIndex: int, itemIndex: int, field: ItemField, value: string)
      requires Valid()
      requires 0 <= dayIndex < |formData.activities|
      requires 0 <= itemIndex < |formData.activities[dayIndex].items|
      modifies this`formData
      ensures Valid()
      ensures formData == old(formData).(activities := WithItemField(old(formData.activities), dayIndex, itemIndex, field, value))
    {
      formData := formData.(activities := WithItemField(formData.activities, dayIndex, itemIndex, field, value));
    }

    method AddActivity(dayIndex: int)
      requires Valid()
      requires 0 <= dayIndex < |formData.activities|
      modifies this`formData
      ensures Valid()
      ensures formData == old(formData).(activities := WithActivityAdded(old(formData.activities), dayIndex))
    {
      formData := formData.(activities := WithActivityAdded(formData.activities, dayIndex));
    }

    method RemoveActivity(dayIndex: int, itemIndex: int)
      requires Valid()
      requires 0 <= dayIndex < |formData.activities|
      requires 0 <= itemIndex < |formData.activities[dayIndex].items|
      modifies this`formData
      ensures Valid()
      ensures formData == old(formData).(activities := WithActivityRemoved(old(formData.activities), dayIndex, itemIndex))
    {
      formData := formData.(activities := WithActivityRemoved(formData.activities, dayIndex, itemIndex));
    }

    /** `handleAddRecommendationClick`: remember the recommendation and open the day picker. */
    method AddRecommendationClick(name: string, description: Option<string>, kind: string)
      modifies this`selectedRecommendation, this`openAddDialog
      ensures selectedRecommendation == Some(Recommendation(name, description, kind))
      ensures openAddDialog
    {
      selectedRecommendation := Some(Recommendation(name, description, kind));
      openAddDialog := true;
    }

    /**
     * The dialog's Cancel button and its `onClose`: the picker closes, and the
     * chosen recommendation and day stay as they were.
     */
    method CloseAddDialog()
      modifies this`openAddDialog
      ensures !openAddDialog
    {
      openAddDialog := false;
    }

    /** The day picker: `day` is the chosen option's day number. */
    method SelectDayToAdd(day: int)
      modifies this`selectedDayToAdd
      ensures selectedDayToAdd == day
    {
      selectedDayToAdd := day;
    }

    /**
     * `confirmAddRecommendation`: nothing happens without a chosen
     * recommendation; otherwise it is imported into the picked day and the
     * dialog closes.
     */
    method ConfirmAddRecommendation()
      requires Valid()
      requires selectedRecommendation.Some? ==> 1 <= selectedDayToAdd <= |formData.activities|
      modifies this`formData, this`openAddDialog, this`selectedRecommendation
      ensures Valid()
      ensures old(selectedRecommendation) == None ==>
        formData == old(formData) && openAddDialog == old(openAddDialog) && selectedRecommendation == None
      ensures old(selectedRecommendation).Some? ==>
        && formData == old(formData).(activities := Imported(old(formData.activities), selectedDayToAdd - 1,
                                                             RecommendationItem(old(selectedRecommendation).value, selectedGuide)))
        && !openAddDialog && selectedRecommendation == None
    {
      if selectedRecommendation == None {
        return;
      }
      var dayIndex := selectedDayToAdd - 1;
      var newItem := RecommendationItem(selectedRecommendation.value, selectedGuide);
      formData := formData.(activities := Imported(formData.activities, dayIndex, newItem));
      openAddDialog := false;
      selectedRecommendation := None;
    }

    method HandleAddDay()
      requires Valid()
      modifies this`formData
      ensures Valid()
      ensures formData == old(formData).(durationDays := |old(formData.activities)| + 1,
                                         activities := WithDayAdded(old(formData.activities)))
    {
      formData := formData.(durationDays := |formData.activities| + 1, activities := WithDayAdded(formData.activities));
    }

    method HandleRemoveDay(dayIndex: int)
      requires Valid()
      requires 0 <= dayIndex < |formData.activities|
      modifies this`formData
      ensures Valid()
      ensures formData == old(formData).(durationDays := |old(formData.activities)| - 1,
                                         activities := WithDayRemoved(old(formData.activities), dayIndex))
    {
      var reindexed := WithDayRemoved(formData.activities, dayIndex);
      formData := formData.(durationDays := |reindexed|, activities := reindexed);
    }

    /**
     * `handleSubmit`: a failed check sets its message and sends nothing;
     * otherwise the error is cleared and the payload is sent. A rejected
     * request shows the server's message or a fallback. The draft itself is
     * never changed.
     */
    method HandleSubmit(today: string, outcome: SubmitOutcome) returns (sent: Option<Payload>)
      requires Valid()
      modifies this`error
      ensures Valid()
      ensures SubmitError(formData, today).Some? ==> sent == None && error == SubmitError(formData, today).value
      ensures SubmitError(formData, today) == None ==> sent == Some(ToPayload(formData))
      ensures SubmitError(formData, today) == None && outcome.Created? ==> error == ""
      ensures SubmitError(formData, today) == None && outcome.Rejected? ==>
        error == OrElse(outcome.serverMessage, "Error creating itinerary")
    {
      var check := SubmitError(formData, today);
      if check.Some? {
        error := check.value;
        return None;
      }
      error := "";
      sent := Some(ToPayload(formData));
      if outcome.Rejected? {
        error := OrElse(outcome.serverMessage, "Error creating itinerary");
      }
    }
  }
}
