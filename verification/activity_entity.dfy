/** The `activities` table row and the category/priority enumerations. */
module ActivityEntity {
  import opened Nullable

  /**
   * One activity. `dueDate` is an epoch-millisecond instant (Kotlin `Long`);
   * `reminderDaysBefore == None` means "no reminder". Category and priority
   * are stored as free strings, not as the enums below.
   */
  datatype Activity = Activity(
    id: int,
    title: string,
    description: string,
    dueDate: int,
    reminderDaysBefore: Option<int>,
    category: string,
    priority: string,
    isCompleted: bool
  )

  /** The id a new entity carries before the store generates one. */
  const DefaultId: int := 0

  /**
   * The constructor call used by the add screen: every field except the
   * defaulted `id` and `isCompleted`.
   */
  function NewActivity(title: string, description: string, dueDate: int,
                       category: string, priority: string,
                       reminderDaysBefore: Option<int>): (a: Activity)
    ensures a.id == DefaultId && !a.isCompleted
    ensures a.title == title && a.description == description && a.dueDate == dueDate
    ensures a.category == category && a.priority == priority
    ensures a.reminderDaysBefore == reminderDaysBefore
  {
    Activity(DefaultId, title, description, dueDate, reminderDaysBefore, category, priority, false)
  }

  datatype Category = WORK | PERSONAL | HEALTH | STUDY | OTHER {
    /** The enum constant's `name`. */
    function Name(): string {
      match this
      case WORK => "WORK"
      case PERSONAL => "PERSONAL"
      case HEALTH => "HEALTH"
      case STUDY => "STUDY"
      case OTHER => "OTHER"
    }
  }

  datatype Priority = HIGH | MEDIUM | LOW {
    function Name(): string {
      match this
      case HIGH => "HIGH"
      case MEDIUM => "MEDIUM"
      case LOW => "LOW"
    }
  }

  /** `Category.values()`, in declaration order. */
  const Categories: seq<Category> := [WORK, PERSONAL, HEALTH, STUDY, OTHER]

  /** `Priority.values()`, in declaration order. */
  const Priorities: seq<Priority> := [HIGH, MEDIUM, LOW]

  /** Five categories and three priorities, each listed once, each with its own name. */
  lemma EnumsComplete()
    ensures |Categories| == 5 && forall c: Category :: c in Categories
    ensures |Priorities| == 3 && forall p: Priority :: p in Priorities
    ensures forall c: Category, d: Category :: c.Name() == d.Name() ==> c == d
    ensures forall p: Priority, q: Priority :: p.Name() == q.Name() ==> p == q
  {
    forall c: Category
      ensures c in Categories
    {
      match c
      case WORK => assert Categories[0] == c;
      case PERSONAL => assert Categories[1] == c;
      case HEALTH => assert Categories[2] == c;
      case STUDY => assert Categories[3] == c;
      case OTHER => assert Categories[4] == c;
    }
    forall p: Priority
      ensures p in Priorities
    {
      match p
      case HIGH => assert Priorities[0] == p;
      case MEDIUM => assert Priorities[1] == p;
      case LOW => assert Priorities[2] == p;
    }
  }
}
