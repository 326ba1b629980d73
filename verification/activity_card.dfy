/**
 * The pure helpers behind `ActivityCard`: category and priority labels,
 * the reminder chip's text, and which parts of the card are shown.
 */
module ActivityCard {
  import opened Nullable
  import opened KotlinText
  import opened ActivityEntity
  import HomeScreen

  // ---------------------------------------------------------------------
  // Labels
  // ---------------------------------------------------------------------

  /** The Spanish label of each category. */
  function CategoryLabelOf(c: Category): string {
    match c
    case WORK => "Trabajo"
    case PERSONAL => "Personal"
    case HEALTH => "Salud"
    case STUDY => "Estudio"
    case OTHER => "Otro"
  }

  /** The Spanish label of each priority. */
  function PriorityLabelOf(p: Priority): string {
    match p
    case HIGH => "Alta"
    case MEDIUM => "Media"
    case LOW => "Baja"
  }

  /**
   * `getCategoryLabel`: the label of the category whose name the string
   * spells in any case; any other string is shown as it is.
   */
  function CategoryLabel(category: string): (shown: string)
    ensures forall c: Category :: Uppercase(category) == c.Name() ==> shown == CategoryLabelOf(c)
    ensures (forall c: Category :: Uppercase(category) != c.Name()) ==> shown == category
  {
    var key := Uppercase(category);
    if key == "WORK" then assert key == WORK.Name(); "Trabajo"
    else if key == "PERSONAL" then assert key == PERSONAL.Name(); "Personal"
    else if key == "HEALTH" then assert key == HEALTH.Name(); "Salud"
    else if key == "STUDY" then assert key == STUDY.Name(); "Estudio"
    else if key == "OTHER" then assert key == OTHER.Name(); "Otro"
    else category
  }

  /**
   * `getPriorityLabel`: the label of the priority whose name the string
   * spells in any case; any other string is shown as it is.
   */
  function PriorityLabel(priority: string): (shown: string)
    ensures forall p: Priority :: Uppercase(priority) == p.Name() ==> shown == PriorityLabelOf(p)
    ensures (forall p: Priority :: Uppercase(priority) != p.Name()) ==> shown == priority
  {
    var key := Uppercase(priority);
    if key == "HIGH" then assert key == HIGH.Name(); "Alta"
    else if key == "MEDIUM" then assert key == MEDIUM.Name(); "Media"
    else if key == "LOW" then assert key == LOW.Name(); "Baja"
    else priority
  }

  /** The strings the forms store (the enum names) get their labels. */
  lemma StoredNamesGetLabels()
    ensures forall c: Category :: CategoryLabel(c.Name()) == CategoryLabelOf(c)
    ensures forall p: Priority :: PriorityLabel(p.Name()) == PriorityLabelOf(p)
  {
    forall c: Category
      ensures CategoryLabel(c.Name()) == CategoryLabelOf(c)
    {
      match c
      case WORK => UppercaseKeepsCapitals("WORK");
      case PERSONAL => UppercaseKeepsCapitals("PERSONAL");
      case HEALTH => UppercaseKeepsCapitals("HEALTH");
      case STUDY => UppercaseKeepsCapitals("STUDY");
      case OTHER => UppercaseKeepsCapitals("OTHER");
    }
    forall p: Priority
      ensures PriorityLabel(p.Name()) == PriorityLabelOf(p)
    {
      match p
      case HIGH => UppercaseKeepsCapitals("HIGH");
      case MEDIUM => UppercaseKeepsCapitals("MEDIUM");
      case LOW => UppercaseKeepsCapitals("LOW");
    }
  }

  /**
   * Case does not matter: a recognised name and its upper-case spelling get
   * the same label.
   */
  lemma LabelsIgnoreCase(s: string)
    requires exists c: Category :: Uppercase(s) == c.Name()
    ensures CategoryLabel(Uppercase(s)) == CategoryLabel(s)
  {
    UppercaseIdempotent(s);
  }

  /** The same for priorities. */
  lemma PriorityLabelsIgnoreCase(s: string)
    requires exists p: Priority :: Uppercase(s) == p.Name()
    ensures PriorityLabel(Uppercase(s)) == PriorityLabel(s)
  {
    UppercaseIdempotent(s);
  }

  /** Different categories, and different priorities, are shown differently. */
  lemma LabelsDistinguish()
    ensures forall c: Category, d: Category :: CategoryLabelOf(c) == CategoryLabelOf(d) ==> c == d
    ensures forall p: Priority, q: Priority :: PriorityLabelOf(p) == PriorityLabelOf(q) ==> p == q
  {
  }

  // ---------------------------------------------------------------------
  // Reminder chip
  // ---------------------------------------------------------------------

  /** What follows the number: "día" for one day (or fewer), "días" for more. */
  function ChipSuffix(days: int): (t: string)
    ensures |t| >= 1 && t[0] == ' '
  {
    " día" + (if days > 1 then "s" else "") + " antes"
  }

  /** The chip text `"$days día${if (days > 1) "s" else ""} antes"`. */
  function ChipText(days: int): (t: string)
    ensures |t| == |Decimal(days)| + |ChipSuffix(days)|
    ensures t[..|Decimal(days)|] == Decimal(days)
    ensures t[|Decimal(days)|..] == ChipSuffix(days)
  {
    Decimal(days) + ChipSuffix(days)
  }

  /** The reminder chip: shown exactly when the activity has a reminder set. */
  function ReminderChip(reminderDaysBefore: Option<int>): (chip: Option<string>)
    ensures chip.Some? <==> reminderDaysBefore.Some?
    ensures chip.Some? ==> chip.value == ChipText(reminderDaysBefore.value)
  {
    match reminderDaysBefore
    case None => None
    case Some(days) => Some(ChipText(days))
  }

  /** Index of the first space in `t`, or `|t|` when there is none. */
  function FirstSpace(t: string): (i: nat)
    ensures i <= |t|
    ensures forall k :: 0 <= k < i ==> t[k] != ' '
    ensures i < |t| ==> t[i] == ' '
  {
    if t == [] then 0 else if t[0] == ' ' then 0 else 1 + FirstSpace(t[1..])
  }

  /** Reads the number of days back from a chip text. */
  function ParseChip(t: string): Option<int> {
    var i := FirstSpace(t);
    match ParseDecimal(t[..i])
    case None => None
    case Some(days) => if t[i..] == ChipSuffix(days) then Some(days) else None
  }

  /** A space-free prefix ends where the first space is. */
  lemma {:induction false} FirstSpaceAfter(p: string, s: string)
    requires forall k :: 0 <= k < |p| ==> p[k] != ' '
    requires |s| >= 1 && s[0] == ' '
    ensures FirstSpace(p + s) == |p|
  {
    if p != [] {
      assert (p + s)[1..] == p[1..] + s;
      FirstSpaceAfter(p[1..], s);
    }
  }

  /** The chip text determines the number of days: it can be read back. */
  lemma ChipRoundTrip(days: int)
    ensures ParseChip(ChipText(days)) == Some(days)
  {
    var t := ChipText(days);
    FirstSpaceAfter(Decimal(days), ChipSuffix(days));
    DecimalRoundTrip(days);
  }

  /** Different day counts give different chips. */
  lemma ChipInjective(a: int, b: int)
    ensures ChipText(a) == ChipText(b) <==> a == b
  {
    ChipRoundTrip(a);
    ChipRoundTrip(b);
  }

  // ---------------------------------------------------------------------
  // The card
  // ---------------------------------------------------------------------

  /** What one card shows for an activity. */
  datatype CardView = CardView(
    title: string,
    struckThrough: bool,
    showsDescription: bool,
    categoryLabel: string,
    priorityLabel: string,
    chip: Option<string>,
    showsEdit: bool,
    showsDelete: bool
  )

  /**
   * The card for `a`: the title struck through once completed, the
   * description only when it is not blank, the two labels, the chip, an
   * edit button only while pending and a delete button always.
   */
  function Card(a: Activity): (v: CardView)
    ensures v.title == a.title
    ensures v.struckThrough <==> a.isCompleted
    ensures v.showsEdit <==> !a.isCompleted
    ensures v.showsDelete
    ensures v.showsDescription <==> !IsBlank(a.description)
    ensures v.chip.Some? <==> a.reminderDaysBefore.Some?
    ensures v.chip == ReminderChip(a.reminderDaysBefore)
    ensures v.categoryLabel == CategoryLabel(a.category) && v.priorityLabel == PriorityLabel(a.priority)
  {
    CardView(a.title, a.isCompleted, !IsBlank(a.description), CategoryLabel(a.category),
             PriorityLabel(a.priority), ReminderChip(a.reminderDaysBefore), !a.isCompleted, true)
  }

  /**
   * On the home screen, every card in the pending section can be edited and
   * is not struck through; every card in the completed section is struck
   * through and cannot be edited.
   */
  lemma HomeCardsFollowSections(xs: seq<Activity>, showCompleted: bool)
    ensures var st := HomeScreen.HomeState(xs, showCompleted);
      st.Success? ==>
        && (forall a :: a in st.pendingActivities ==> Card(a).showsEdit && !Card(a).struckThrough)
        && (forall a :: a in st.completedActivities ==> !Card(a).showsEdit && Card(a).struckThrough)
  {
  }
}
