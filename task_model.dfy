/** The Task record of models/Task.js: its enumerations, defaults and limits. */
module TaskModel {
  import opened Wrappers
  import opened Text

  /** Store-generated identifiers (ObjectIds), kept opaque. */
  type UserId = nat
  type TaskId = nat

  datatype Status = Pending | Completed | Deleted
  datatype Priority = Low | Medium | High

  const MaxTitleLength: nat := 200
  const MaxDescriptionLength: nat := 1000
  const DefaultStatus: Status := Pending
  const DefaultPriority: Priority := Medium
  const DefaultDescription: string := ""

  /** One stored task. `owner` is the required reference to its user;
      `createdAt` and `updatedAt` are the timestamps the schema adds. */
  datatype Task = Task(
    id: TaskId,
    title: string,
    description: string,
    status: Status,
    priority: Priority,
    owner: UserId,
    createdAt: int,
    updatedAt: int)

  /** What the schema accepts when a document is saved: a required, trimmed
      (unpadded: see Text.TrimmedIffUnpadded) title of at most 200 characters and a description of at most 1000. */
  predicate ValidTask(t: Task)
  {
    && t.title != ""
    && Unpadded(t.title)
    && |t.title| <= MaxTitleLength
    && |t.description| <= MaxDescriptionLength
  }

  function StatusName(s: Status): string
  {
    match s
    case Pending => "pending"
    case Completed => "completed"
    case Deleted => "deleted"
  }

  /** The enum check on a status string: exactly the three names are accepted. */
  function ParseStatus(name: string): (r: Option<Status>)
    ensures r.Some? <==> name in {"pending", "completed", "deleted"}
    ensures r.Some? ==> StatusName(r.value) == name
  {
    if name == "pending" then Some(Pending)
    else if name == "completed" then Some(Completed)
    else if name == "deleted" then Some(Deleted)
    else None
  }

  lemma ParseStatusName(s: Status)
    ensures ParseStatus(StatusName(s)) == Some(s)
  {
  }

  function PriorityName(p: Priority): string
  {
    match p
    case Low => "low"
    case Medium => "medium"
    case High => "high"
  }

  /** The enum check on a priority string: exactly the three names are accepted. */
  function ParsePriority(name: string): (r: Option<Priority>)
    ensures r.Some? <==> name in {"low", "medium", "high"}
    ensures r.Some? ==> PriorityName(r.value) == name
  {
    if name == "low" then Some(Low)
    else if name == "medium" then Some(Medium)
    else if name == "high" then Some(High)
    else None
  }

  lemma ParsePriorityName(p: Priority)
    ensures ParsePriority(PriorityName(p)) == Some(p)
  {
  }

  /** The position of a priority when the stored strings are sorted in
      DESCENDING order: "medium" first, then "low", then "high". */
  function DescendingRank(p: Priority): nat
  {
    match p
    case Medium => 2
    case Low => 1
    case High => 0
  }

  /** Comparing the stored priority strings is comparing their ranks:
      "high" < "low" < "medium" as strings. */
  lemma PriorityNameOrder(p: Priority, q: Priority)
    ensures LexLess(PriorityName(p), PriorityName(q)) <==> DescendingRank(p) < DescendingRank(q)
    ensures PriorityName(p) == PriorityName(q) <==> p == q
  {
    assert "high"[0] == 'h' && "low"[0] == 'l' && "medium"[0] == 'm';
  }
}
