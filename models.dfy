/** The database tables of the task app: field domains and defaults, the completion
    rule of `Task.save`, and an in-memory store standing in for the ORM tables. */
module Models {
  import opened JsonValues

  /** Timestamps are integer microseconds since the epoch. */
  type Timestamp = int

  const MicrosPerDay: int := 86_400_000_000

  /** `Task.priority`: one of the four PRIORITY_CHOICES. */
  datatype Priority = Low | Medium | High | Urgent {
    function Name(): string {
      match this
      case Low => "low"
      case Medium => "medium"
      case High => "high"
      case Urgent => "urgent"
    }
  }

  /** `Task.status`: one of the four STATUS_CHOICES. */
  datatype Status = Pending | InProgress | Completed | Cancelled {
    function Name(): string {
      match this
      case Pending => "pending"
      case InProgress => "in_progress"
      case Completed => "completed"
      case Cancelled => "cancelled"
    }

    /** The statuses the views count as still open (`status__in=['pending', 'in_progress']`). */
    predicate IsOpen() {
      this == Pending || this == InProgress
    }
  }

  const DefaultPriority: Priority := Medium
  const DefaultStatus: Status := Pending
  const DefaultPriorityScore: real := 0.5

  /** The choice value of a choice field maps back to exactly one choice. */
  lemma PriorityNamesDistinct(p: Priority, q: Priority)
    ensures p.Name() == q.Name() ==> p == q
  {
  }

  /** `completed_at` as `Task.save` leaves it: stamped with `now` when the task becomes
      completed without a stamp, kept when it already has one, cleared otherwise. */
  function CompletedAtAfterSave(status: Status, completedAt: Option<Timestamp>, now: Timestamp): (r: Option<Timestamp>)
    ensures r.None? <==> status != Completed
    ensures status == Completed && completedAt.Some? ==> r == completedAt
    ensures status == Completed && completedAt.None? ==> r == Some(now)
  {
    if status == Completed && completedAt.None? then Some(now)
    else if status != Completed then None
    else completedAt
  }

  /** Saving twice, at any two times, leaves `completed_at` as the first save left it. */
  lemma {:induction false} SaveIdempotent(status: Status, completedAt: Option<Timestamp>, now1: Timestamp, now2: Timestamp)
    ensures CompletedAtAfterSave(status, CompletedAtAfterSave(status, completedAt, now1), now2)
         == CompletedAtAfterSave(status, completedAt, now1)
  {
    var once := CompletedAtAfterSave(status, completedAt, now1);
    if status == Completed {
      assert once.Some?;
    } else {
      assert once.None?;
    }
  }

  /** The stored columns of a task, as a value: what a task holds at one moment. */
  datatype TaskFields = TaskFields(
    title: string, description: Option<string>, category: Option<string>, priority: Priority,
    priorityScore: real, status: Status, deadline: Option<Timestamp>, estimatedDuration: Option<int>,
    aiEnhancedDescription: Option<string>, aiSuggestedTags: Json, aiSuggestions: Dict,
    createdAt: Timestamp, updatedAt: Timestamp, completedAt: Option<Timestamp>)
  {
    /** What every saved task satisfies: the score lies in [0,1] and `completed_at` is
        set exactly for completed tasks. */
    predicate Valid() {
      0.0 <= priorityScore <= 1.0 && (completedAt.Some? <==> status == Completed)
    }
  }

  /** A row of the `Task` table; `save` updates it in place. */
  class Task {
    const id: int
    var title: string
    var description: Option<string>
    /** the name of the linked Category, if any */
    var category: Option<string>
    var priority: Priority
    var priorityScore: real
    var status: Status
    var deadline: Option<Timestamp>
    /** minutes */
    var estimatedDuration: Option<int>
    var aiEnhancedDescription: Option<string>
    var aiSuggestedTags: Json
    var aiSuggestions: Dict
    var createdAt: Timestamp
    var updatedAt: Timestamp
    var completedAt: Option<Timestamp>

    /** The task's columns as they are now. */
    function Fields(): TaskFields
      reads this
    {
      TaskFields(title, description, category, priority, priorityScore, status, deadline, estimatedDuration,
                 aiEnhancedDescription, aiSuggestedTags, aiSuggestions, createdAt, updatedAt, completedAt)
    }

    /** What every saved task satisfies (see `TaskFields.Valid`). */
    ghost predicate Valid()
      reads this
    {
      Fields().Valid()
    }

    /** `Task.objects.create(...)` with the fields a client may set: every other field
        takes its model default, then `save` runs. */
    constructor (id: int, title: string, description: Option<string>, category: Option<string>,
                 priority: Priority, deadline: Option<Timestamp>, estimatedDuration: Option<int>,
                 now: Timestamp)
      ensures this.id == id && this.title == title && this.description == description
      ensures this.category == category && this.priority == priority
      ensures this.deadline == deadline && this.estimatedDuration == estimatedDuration
      ensures priorityScore == DefaultPriorityScore && status == DefaultStatus
      ensures aiEnhancedDescription.None? && aiSuggestedTags == JArr([]) && aiSuggestions == map[]
      ensures createdAt == now && updatedAt == now && completedAt.None?
      ensures Valid()
    {
      this.id := id;
      this.title := title;
      this.description := description;
      this.category := category;
      this.priority := priority;
      this.deadline := deadline;
      this.estimatedDuration := estimatedDuration;
      priorityScore := DefaultPriorityScore;
      status := DefaultStatus;
      aiEnhancedDescription := None;
      aiSuggestedTags := JArr([]);
      aiSuggestions := map[];
      createdAt := now;
      updatedAt := now;
      completedAt := CompletedAtAfterSave(DefaultStatus, None, now);
    }

    /** `Task.save`: applies the completion rule, then persists (`updated_at` is auto_now). */
    method Save(now: Timestamp)
      modifies this`completedAt, this`updatedAt
      ensures completedAt == CompletedAtAfterSave(status, old(completedAt), now)
      ensures updatedAt == now
      ensures 0.0 <= priorityScore <= 1.0 ==> Valid()
    {
      if status == Completed && completedAt.None? {
        completedAt := Some(now);
      } else if status != Completed {
        completedAt := None;
      }
      updatedAt := now;
    }
  }

  /** `ContextEntry.source_type`. */
  datatype SourceType = WhatsApp | Email | Notes | Calendar | OtherSource

  const DefaultSourceType: SourceType := OtherSource

  /** A row of the `ContextEntry` table. */
  datatype ContextEntry = ContextEntry(
    id: int,
    content: string,
    sourceType: SourceType,
    sourceIdentifier: string,
    timestamp: Timestamp,
    processedInsights: Dict,
    processedAt: Option<Timestamp>,
    createdAt: Timestamp)

  /** A row of the `Category` table, keyed by its unique name. */
  datatype Category = Category(color: string, usageCount: int)

  const DefaultCategoryColor := "#3B82F6"

  /** `AIProcessingLog.processing_type`. */
  datatype ProcessingType = TaskPrioritization | ContextAnalysis | DeadlineSuggestion | TaskEnhancement | Categorization

  /** A row of the `AIProcessingLog` table. */
  datatype ProcessingLog = ProcessingLog(
    processingType: ProcessingType,
    inputData: Dict,
    outputData: Dict,
    processingTimeMs: int,
    modelUsed: string,
    success: bool,
    errorMessage: Option<string>)

  /** The tables the views and commands update, held in memory. `tags` is the TaskTag
      table (unique name to usage_count); `relations` is TaskTagRelation, keyed by its
      unique (task id, tag name) pair and giving `ai_suggested`; every relation names an
      existing tag. Context entries are kept in creation order. */
  class Store {
    var categories: map<string, Category>
    var tags: map<string, int>
    var relations: map<(int, string), bool>
    var entries: seq<ContextEntry>
    var aiLog: seq<ProcessingLog>

    ghost predicate Valid()
      reads this
    {
      && (forall k :: k in relations ==> k.1 in tags)
      && (forall name :: name in tags ==> tags[name] >= 0)
      && EntriesInCreationOrder(entries)
    }

    constructor ()
      ensures Valid()
      ensures categories == map[] && tags == map[] && relations == map[]
      ensures entries == [] && aiLog == []
    {
      categories := map[];
      tags := map[];
      relations := map[];
      entries := [];
      aiLog := [];
    }
  }

  /** Entries are stored oldest first: `created_at` never decreases along the sequence. */
  ghost predicate EntriesInCreationOrder(entries: seq<ContextEntry>) {
    forall i, j :: 0 <= i < j < |entries| ==> entries[i].createdAt <= entries[j].createdAt
  }
}
