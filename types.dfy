/** The records and enumerations of the chat app (types.ts).
    Optional TypeScript properties are `Option`s; an optional list
    (`attachments?`, `reactions?`) is a sequence whose empty value stands
    for "absent", since every reader of those lists treats the two alike. */
module Types {

  datatype Option<+T> = None | Some(value: T) {
    function GetOr(default: T): T {
      match this
      case Some(v) => v
      case None => default
    }
  }

  /** Who wrote a message or gave a reaction. */
  datatype Role = User | Model

  datatype Persona = Friend | Tutor

  datatype AttachmentType = Image | Video

  datatype Attachment = Attachment(
    kind: AttachmentType,
    url: string,
    base64: Option<string>,
    mimeType: string)

  /** An emoji together with the role that gave it. */
  datatype Reaction = Reaction(emoji: string, from: Role)

  datatype Story = Story(
    id: string,
    imageUrl: string,
    caption: string,
    timestamp: int,
    seen: bool)

  datatype Message = Message(
    id: string,
    role: Role,
    text: string,
    timestamp: int,
    audioData: Option<string>,
    mood: Option<string>,
    attachments: seq<Attachment>,
    reactions: seq<Reaction>)

  datatype UserProfile = UserProfile(
    name: string,
    bio: string,
    jeffStoryline: string,
    topics: seq<string>)

  datatype PlannerType = Event | Reminder | Date

  datatype PlannerItem = PlannerItem(
    id: string,
    title: string,
    date: string,
    kind: PlannerType,
    completed: bool,
    notes: Option<string>)

  datatype ExpenseCategory = Exam | Budget | Other

  /** `category` is optional here although the interface declares it:
      the add_expense tool copies an argument that the schema leaves optional. */
  datatype Expense = Expense(
    id: string,
    item: string,
    amount: int,
    category: Option<ExpenseCategory>,
    date: string)

  datatype WishlistType = Movie | Book | Item | OtherWish

  datatype WishlistStatus = Want | Acquired | Finished

  datatype WishlistItem = WishlistItem(
    id: string,
    title: string,
    kind: WishlistType,
    status: WishlistStatus,
    notes: Option<string>)

  /** `currentChapter` is optional here although the interface declares it:
      update_novel_progress copies an argument that the schema leaves optional. */
  datatype NovelLog = NovelLog(
    id: string,
    title: string,
    author: Option<string>,
    currentChapter: Option<int>,
    totalChapters: Option<int>,
    notes: string)

  /** Focus timer; `duration` and `remaining` count seconds, `title` is the label shown above it. */
  datatype TimerState = TimerState(
    isActive: bool,
    duration: int,
    remaining: int,
    title: string)
}
