/**
 * The records and enumerations of `types.ts` that the modelled logic touches.
 * Every record is a value; the components never share one mutably except where
 * a class in another module says so.
 */
module Types {

  datatype Option<T> = None | Some(value: T)
  {
    function GetOr(default: T): T
    {
      match this
      case Some(v) => v
      case None => default
    }
  }

  /** The navigation enumeration; `ViewName` is the string each member carries at run time. */
  datatype View = Dashboard | CareCircle | Projects | PetBabyLog | Vault | Memories

  function ViewName(v: View): string
  {
    match v
    case Dashboard => "Dashboard"
    case CareCircle => "Care Circle"
    case Projects => "To-Do & Projects"
    case PetBabyLog => "Pet & Baby Log"
    case Vault => "Shared Secure Vault"
    case Memories => "Memories"
  }

  /** Different views carry different strings, so the run-time switch can tell them apart. */
  lemma ViewNameInjective(v: View, w: View)
    requires ViewName(v) == ViewName(w)
    ensures v == w
  {
  }

  datatype User = User(id: string, name: string, avatar: string)

  /** The mock users the components declare inline (`MOCK_USERS`). */
  const Stacey := User("stacey", "Stacey", "https://picsum.photos/seed/stacey/100/100")
  const John := User("john", "John", "https://picsum.photos/seed/john/100/100")
  const Craig := User("craig", "Craig", "https://picsum.photos/seed/craig/100/100")

  datatype EventKind = Shift | Birthday

  datatype CalendarEvent = CalendarEvent(
    id: string, day: string, time: Option<string>, title: string, kind: EventKind, assignee: Option<User>)

  datatype LogCategory = Update | Event | Observation

  datatype WellnessLog = WellnessLog(
    id: string, author: User, timestamp: string, category: LogCategory, content: string, imageUrl: Option<string>)

  datatype ChatMessage = ChatMessage(id: string, author: User, timestamp: string, content: string)

  datatype Role = UserRole | ModelRole

  /** One entry of the assistant transcript. */
  datatype BotChatMessage = BotChatMessage(role: Role, text: string)

  datatype TaskStatus = ToDo | InProgress | Done

  /** The string value of each status, as shown in column titles and the weekly summary. */
  function StatusLabel(s: TaskStatus): string
  {
    match s
    case ToDo => "To Do"
    case InProgress => "In Progress"
    case Done => "Done"
  }

  /** Different statuses carry different labels. */
  lemma StatusLabelInjective(a: TaskStatus, b: TaskStatus)
    requires StatusLabel(a) == StatusLabel(b)
    ensures a == b
  {
  }

  datatype Task = Task(
    id: string, title: string, description: string, assignee: Option<User>, status: TaskStatus, dueDate: Option<string>)

  datatype Project = Project(id: string, title: string, lead: User, tasks: seq<Task>)

  datatype ShoppingCategory = Groceries | Supplies | Grams | Pet

  datatype ShoppingItem = ShoppingItem(id: string, name: string, addedBy: User, category: ShoppingCategory)

  datatype Meal = Meal(breakfast: string, lunch: string, dinner: string)

  datatype MealPlanDay = MealPlanDay(day: string, meals: Meal)

  datatype Location = Home | Away

  /** A scheduled game; `start` is the game's date as whole milliseconds since the epoch. */
  datatype HockeyGame = HockeyGame(id: string, opponent: string, start: int, location: Location)

  datatype MemoryItem = MemoryItem(
    id: string, imageUrl: string, prompt: string, story: string, date: string, uploadedBy: User)

  datatype LiveScore = LiveScore(mtlScore: string, opponentScore: string, period: string, timeRemaining: string)
}
