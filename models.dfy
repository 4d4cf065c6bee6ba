/**
 * The records exchanged with the planner service, and the JSON members each
 * one is written as. A record is written as the object holding, for each of
 * its member names, the member it has under that name; `omitempty` drops a
 * nil pointer or an empty raw value and nothing else.
 */
module Models {
  import opened Wrappers
  import opened Json

  /**
   * A `json.RawMessage` member of a task as the service sent it: missing,
   * the literal `null`, a JSON string, or some other JSON value.
   */
  datatype Raw = Absent | Null | Str(s: string) | Other(value: Json)

  /** How a member that arrived (or did not) is held. */
  function RawOf(member: Option<Json>): (r: Raw)
    ensures r.Absent? <==> member.None?
    ensures r.Null? <==> member == Some(JNull)
    ensures r.Str? <==> member.Some? && member.value.JStr?
    ensures r.Str? ==> r.s == member.value.s
    ensures r.Other? ==> Some(r.value) == member
  {
    match member
    case None => Absent
    case Some(JNull) => Null
    case Some(JStr(s)) => Str(s)
    case Some(j) => Other(j)
  }

  /** A raw member as `RawOf` produces it: `Other` never holds `null` or a string. */
  predicate Canonical(raw: Raw) {
    raw.Other? ==> !raw.value.JNull? && !raw.value.JStr?
  }

  /** The member a raw value is written back as; an empty one is omitted. */
  function RawJson(raw: Raw): (r: Option<Json>)
    ensures r.None? <==> raw.Absent?
  {
    match raw
    case Absent => None
    case Null => Some(JNull)
    case Str(s) => Some(JStr(s))
    case Other(j) => Some(j)
  }

  /** Writing a member back gives the member that arrived. */
  lemma RawJsonOf(member: Option<Json>)
    ensures RawJson(RawOf(member)) == member
  {
  }

  /** Reading a canonical raw value back from what it is written as gives it again. */
  lemma RawOfJson(raw: Raw)
    requires Canonical(raw)
    ensures RawOf(RawJson(raw)) == raw
  {
  }

  function ReadRaw(m: map<string, Json>, key: string): (r: Raw)
    ensures Canonical(r)
  {
    RawOf(if key in m then Some(m[key]) else None)
  }

  datatype Task = Task(
    id: string,
    description: string,
    date: Raw,
    start: Raw,
    dueDate: Raw,
    estimatedTime: Option<int>,
    actualTime: Option<int>,
    complete: bool,
    completedAt: Raw,
    listId: Option<string>,
    labelId: Option<string>,
    priority: Option<int>,
    recurringId: Option<string>,
    recurring: bool,
    createdAt: Raw)

  /** The text a raw member holds when it is a JSON string, and "" otherwise. */
  function RawString(raw: Raw): (r: string)
    ensures raw.Absent? || raw.Null? || raw.Other? ==> r == ""
    ensures raw.Str? ==> r == raw.s
  {
    if raw.Str? then raw.s else ""
  }

  /** `Task.GetDateString`. */
  function GetDateString(t: Task): (r: string)
    ensures t.date.Absent? || t.date.Null? ==> r == ""
    ensures t.date.Str? ==> r == t.date.s
    ensures t.date.Other? ==> r == ""
  {
    RawString(t.date)
  }

  /** `Task.GetStartString`. */
  function GetStartString(t: Task): (r: string)
    ensures t.start.Absent? || t.start.Null? ==> r == ""
    ensures t.start.Str? ==> r == t.start.s
    ensures t.start.Other? ==> r == ""
  {
    RawString(t.start)
  }

  /** Over what arrived on the wire: a JSON string yields its text, anything else "". */
  lemma DateStringOfMember(t: Task, member: Option<Json>)
    requires t.date == RawOf(member)
    ensures GetDateString(t) == if member.Some? && member.value.JStr? then member.value.s else ""
  {
  }

  lemma StartStringOfMember(t: Task, member: Option<Json>)
    requires t.start == RawOf(member)
    ensures GetStartString(t) == if member.Some? && member.value.JStr? then member.value.s else ""
  {
  }

  /** A task as decoding produces it. */
  predicate WellFormedTask(t: Task) {
    Canonical(t.date) && Canonical(t.start) && Canonical(t.dueDate)
    && Canonical(t.completedAt) && Canonical(t.createdAt)
  }

  const TaskKeys: set<string> := {"id", "description", "date", "start", "due_date", "estimated_time",
    "actual_time", "complete", "completed_at", "listId", "label", "priority", "recurring_id",
    "recurring", "created_at"}

  /** The member a task is written with under `key`; None when it is omitted. */
  function TaskMember(t: Task, key: string): Option<Json> {
    if key == "id" then Some(JStr(t.id))
    else if key == "description" then Some(JStr(t.description))
    else if key == "date" then RawJson(t.date)
    else if key == "start" then RawJson(t.start)
    else if key == "due_date" then RawJson(t.dueDate)
    else if key == "estimated_time" then IntJson(t.estimatedTime)
    else if key == "actual_time" then IntJson(t.actualTime)
    else if key == "complete" then Some(JBool(t.complete))
    else if key == "completed_at" then RawJson(t.completedAt)
    else if key == "listId" then StrJson(t.listId)
    else if key == "label" then StrJson(t.labelId)
    else if key == "priority" then IntJson(t.priority)
    else if key == "recurring_id" then StrJson(t.recurringId)
    else if key == "recurring" then Some(JBool(t.recurring))
    else if key == "created_at" then RawJson(t.createdAt)
    else None
  }

  /** `json.Marshal` of a task. */
  function EncodeTask(t: Task): (j: Json)
    ensures j.JObj? && j.members.Keys <= TaskKeys
  {
    JObj(map k | k in TaskKeys && TaskMember(t, k).Some? :: TaskMember(t, k).value)
  }

  /** The members a task is always written with, whatever its values. */
  lemma TaskAlwaysHas(t: Task)
    ensures HasKey(EncodeTask(t), "id") && EncodeTask(t).members["id"] == JStr(t.id)
    ensures HasKey(EncodeTask(t), "description") && EncodeTask(t).members["description"] == JStr(t.description)
    ensures HasKey(EncodeTask(t), "complete") && EncodeTask(t).members["complete"] == JBool(t.complete)
    ensures HasKey(EncodeTask(t), "recurring") && EncodeTask(t).members["recurring"] == JBool(t.recurring)
  {
  }

  /** Each raw member is written iff it arrived. */
  lemma TaskRawMembers(t: Task)
    ensures HasKey(EncodeTask(t), "date") <==> !t.date.Absent?
    ensures HasKey(EncodeTask(t), "start") <==> !t.start.Absent?
    ensures HasKey(EncodeTask(t), "due_date") <==> !t.dueDate.Absent?
    ensures HasKey(EncodeTask(t), "completed_at") <==> !t.completedAt.Absent?
    ensures HasKey(EncodeTask(t), "created_at") <==> !t.createdAt.Absent?
  {
  }

  /** Each pointer member is written iff its pointer is set. */
  lemma TaskPointerMembers(t: Task)
    ensures HasKey(EncodeTask(t), "estimated_time") <==> t.estimatedTime.Some?
    ensures HasKey(EncodeTask(t), "actual_time") <==> t.actualTime.Some?
    ensures HasKey(EncodeTask(t), "listId") <==> t.listId.Some?
    ensures HasKey(EncodeTask(t), "label") <==> t.labelId.Some?
    ensures HasKey(EncodeTask(t), "priority") <==> t.priority.Some?
    ensures HasKey(EncodeTask(t), "recurring_id") <==> t.recurringId.Some?
  {
  }

  /** Reads a task from an object the way `json.Unmarshal` fills the struct. */
  function ReadTask(j: Json): (r: Option<Task>)
    ensures r.Some? ==> WellFormedTask(r.value)
  {
    if !j.JObj? then None
    else
      var m := j.members;
      var id, desc, complete, recurring := ReadStr(m, "id"), ReadStr(m, "description"),
        ReadBool(m, "complete"), ReadBool(m, "recurring");
      var est, act, pri := ReadOptInt(m, "estimated_time"), ReadOptInt(m, "actual_time"),
        ReadOptInt(m, "priority");
      var list, lab, rec := ReadOptStr(m, "listId"), ReadOptStr(m, "label"),
        ReadOptStr(m, "recurring_id");
      if id.None? || desc.None? || complete.None? || recurring.None? || est.None? || act.None?
         || pri.None? || list.None? || lab.None? || rec.None?
      then None
      else Some(Task(id.value, desc.value, ReadRaw(m, "date"), ReadRaw(m, "start"),
                     ReadRaw(m, "due_date"), est.value, act.value, complete.value,
                     ReadRaw(m, "completed_at"), list.value, lab.value, pri.value, rec.value,
                     recurring.value, ReadRaw(m, "created_at")))
  }

  lemma TaskReadsPlainFields(t: Task)
    ensures ReadStr(EncodeTask(t).members, "id") == Some(t.id)
    ensures ReadStr(EncodeTask(t).members, "description") == Some(t.description)
    ensures ReadBool(EncodeTask(t).members, "complete") == Some(t.complete)
    ensures ReadBool(EncodeTask(t).members, "recurring") == Some(t.recurring)
  {
  }

  lemma TaskReadsIntFields(t: Task)
    ensures ReadOptInt(EncodeTask(t).members, "estimated_time") == Some(t.estimatedTime)
    ensures ReadOptInt(EncodeTask(t).members, "actual_time") == Some(t.actualTime)
    ensures ReadOptInt(EncodeTask(t).members, "priority") == Some(t.priority)
  {
  }

  lemma TaskReadsStrFields(t: Task)
    ensures ReadOptStr(EncodeTask(t).members, "listId") == Some(t.listId)
    ensures ReadOptStr(EncodeTask(t).members, "label") == Some(t.labelId)
    ensures ReadOptStr(EncodeTask(t).members, "recurring_id") == Some(t.recurringId)
  {
  }

  lemma TaskReadsScheduleFields(t: Task)
    requires WellFormedTask(t)
    ensures ReadRaw(EncodeTask(t).members, "date") == t.date
    ensures ReadRaw(EncodeTask(t).members, "start") == t.start
    ensures ReadRaw(EncodeTask(t).members, "due_date") == t.dueDate
  {
  }

  lemma TaskReadsStampFields(t: Task)
    requires WellFormedTask(t)
    ensures ReadRaw(EncodeTask(t).members, "completed_at") == t.completedAt
    ensures ReadRaw(EncodeTask(t).members, "created_at") == t.createdAt
  {
  }

  /** An object whose members each read back as the fields of `t` is read as `t`. */
  lemma ReadTaskOf(m: map<string, Json>, t: Task)
    requires ReadStr(m, "id") == Some(t.id) && ReadStr(m, "description") == Some(t.description)
    requires ReadBool(m, "complete") == Some(t.complete) && ReadBool(m, "recurring") == Some(t.recurring)
    requires ReadOptInt(m, "estimated_time") == Some(t.estimatedTime)
    requires ReadOptInt(m, "actual_time") == Some(t.actualTime)
    requires ReadOptInt(m, "priority") == Some(t.priority)
    requires ReadOptStr(m, "listId") == Some(t.listId) && ReadOptStr(m, "label") == Some(t.labelId)
    requires ReadOptStr(m, "recurring_id") == Some(t.recurringId)
    requires ReadRaw(m, "date") == t.date && ReadRaw(m, "start") == t.start
    requires ReadRaw(m, "due_date") == t.dueDate && ReadRaw(m, "completed_at") == t.completedAt
    requires ReadRaw(m, "created_at") == t.createdAt
    ensures ReadTask(JObj(m)) == Some(t)
  {
  }

  /** Encoding loses nothing: a task as decoding produces it reads back as itself. */
  lemma TaskRoundTrip(t: Task)
    requires WellFormedTask(t)
    ensures ReadTask(EncodeTask(t)) == Some(t)
  {
    TaskReadsPlainFields(t);
    TaskReadsIntFields(t);
    TaskReadsStrFields(t);
    TaskReadsScheduleFields(t);
    TaskReadsStampFields(t);
    ReadTaskOf(EncodeTask(t).members, t);
  }

  datatype Label = Label(id: string, name: string, color: string)

  /** `json.Marshal` of a label: all three members, always. */
  function EncodeLabel(l: Label): (j: Json)
    ensures j.JObj? && j.members.Keys == {"id", "name", "color"}
    ensures j.members["id"] == JStr(l.id)
    ensures j.members["name"] == JStr(l.name) && j.members["color"] == JStr(l.color)
  {
    JObj(map["id" := JStr(l.id), "name" := JStr(l.name), "color" := JStr(l.color)])
  }

  datatype List = List(id: string, title: string, icon: string, autoLabelId: Option<string>)

  datatype User = User(id: string, email: string, name: string)

  datatype APIUsageToday = APIUsageToday(date: string, used: int, remaining: int, limit: int)

  datatype APIUsageRateLimit = APIUsageRateLimit(requestsPerMinute: int, windowMs: int)

  datatype APIUsage = APIUsage(today: APIUsageToday, rateLimit: APIUsageRateLimit, resetAt: string)

  // ------------------------------------------------------------ request bodies

  datatype CreateTaskRequest = CreateTaskRequest(
    description: string,
    date: Option<string>,
    start: Option<string>,
    estimatedTime: Option<int>,
    listId: Option<string>,
    labelId: Option<string>,
    priority: Option<int>)

  const CreateTaskKeys: set<string> :=
    {"description", "date", "start", "estimated_time", "listId", "label", "priority"}

  function CreateTaskMember(r: CreateTaskRequest, key: string): Option<Json> {
    if key == "description" then Some(JStr(r.description))
    else if key == "date" then StrJson(r.date)
    else if key == "start" then StrJson(r.start)
    else if key == "estimated_time" then IntJson(r.estimatedTime)
    else if key == "listId" then StrJson(r.listId)
    else if key == "label" then StrJson(r.labelId)
    else if key == "priority" then IntJson(r.priority)
    else None
  }

  /** The body of a create request: `description` always, each other member iff its pointer is set. */
  function EncodeCreateTaskRequest(r: CreateTaskRequest): (j: Json)
    ensures j.JObj? && j.members.Keys <= CreateTaskKeys
    ensures HasKey(j, "description") && j.members["description"] == JStr(r.description)
    ensures HasKey(j, "date") <==> r.date.Some?
    ensures HasKey(j, "start") <==> r.start.Some?
    ensures HasKey(j, "estimated_time") <==> r.estimatedTime.Some?
    ensures HasKey(j, "listId") <==> r.listId.Some?
    ensures HasKey(j, "label") <==> r.labelId.Some?
    ensures HasKey(j, "priority") <==> r.priority.Some?
  {
    JObj(map k | k in CreateTaskKeys && CreateTaskMember(r, k).Some? :: CreateTaskMember(r, k).value)
  }

  function ReadCreateTaskRequest(j: Json): Option<CreateTaskRequest> {
    if !j.JObj? then None
    else
      var m := j.members;
      var desc, date, start, est := ReadStr(m, "description"), ReadOptStr(m, "date"),
        ReadOptStr(m, "start"), ReadOptInt(m, "estimated_time");
      var list, lab, pri := ReadOptStr(m, "listId"), ReadOptStr(m, "label"), ReadOptInt(m, "priority");
      if desc.None? || date.None? || start.None? || est.None? || list.None? || lab.None? || pri.None?
      then None
      else Some(CreateTaskRequest(desc.value, date.value, start.value, est.value, list.value,
                                  lab.value, pri.value))
  }

  /** What the service decodes from a create body is the request that was sent. */
  lemma CreateTaskRequestRoundTrip(r: CreateTaskRequest)
    ensures ReadCreateTaskRequest(EncodeCreateTaskRequest(r)) == Some(r)
  {
  }

  datatype UpdateTaskRequest = UpdateTaskRequest(
    description: Option<string>,
    date: Option<string>,
    start: Option<string>,
    estimatedTime: Option<int>,
    complete: Option<bool>,
    listId: Option<string>,
    labelId: Option<string>,
    priority: Option<int>)

  const EmptyUpdate := UpdateTaskRequest(None, None, None, None, None, None, None, None)

  const UpdateTaskKeys: set<string> :=
    {"description", "date", "start", "estimated_time", "complete", "listId", "label", "priority"}

  function UpdateTaskMember(r: UpdateTaskRequest, key: string): Option<Json> {
    if key == "description" then StrJson(r.description)
    else if key == "date" then StrJson(r.date)
    else if key == "start" then StrJson(r.start)
    else if key == "estimated_time" then IntJson(r.estimatedTime)
    else if key == "complete" then BoolJson(r.complete)
    else if key == "listId" then StrJson(r.listId)
    else if key == "label" then StrJson(r.labelId)
    else if key == "priority" then IntJson(r.priority)
    else None
  }

  /** The body of an update request: a member iff its pointer is set, so a set `false`, `0` or "" is sent. */
  function EncodeUpdateTaskRequest(r: UpdateTaskRequest): (j: Json)
    ensures j.JObj? && j.members.Keys <= UpdateTaskKeys
    ensures HasKey(j, "description") <==> r.description.Some?
    ensures HasKey(j, "date") <==> r.date.Some?
    ensures HasKey(j, "start") <==> r.start.Some?
    ensures HasKey(j, "estimated_time") <==> r.estimatedTime.Some?
    ensures HasKey(j, "complete") <==> r.complete.Some?
    ensures HasKey(j, "listId") <==> r.listId.Some?
    ensures HasKey(j, "label") <==> r.labelId.Some?
    ensures HasKey(j, "priority") <==> r.priority.Some?
  {
    JObj(map k | k in UpdateTaskKeys && UpdateTaskMember(r, k).Some? :: UpdateTaskMember(r, k).value)
  }

  /** Zero values are not "empty" to a pointer: they are sent. */
  lemma UpdateSendsZeroValues(r: UpdateTaskRequest)
    ensures r.complete == Some(false) ==> EncodeUpdateTaskRequest(r).members["complete"] == JBool(false)
    ensures r.estimatedTime == Some(0) ==> EncodeUpdateTaskRequest(r).members["estimated_time"] == JInt(0)
    ensures r.description == Some("") ==> EncodeUpdateTaskRequest(r).members["description"] == JStr("")
  {
  }

  /** An update with no field set is the empty object. */
  lemma EmptyUpdateIsEmptyObject()
    ensures EncodeUpdateTaskRequest(EmptyUpdate) == JObj(map[])
  {
  }

  function ReadUpdateTaskRequest(j: Json): Option<UpdateTaskRequest> {
    if !j.JObj? then None
    else
      var m := j.members;
      var desc, date, start, est := ReadOptStr(m, "description"), ReadOptStr(m, "date"),
        ReadOptStr(m, "start"), ReadOptInt(m, "estimated_time");
      var complete, list, lab, pri := ReadOptBool(m, "complete"), ReadOptStr(m, "listId"),
        ReadOptStr(m, "label"), ReadOptInt(m, "priority");
      if desc.None? || date.None? || start.None? || est.None? || complete.None? || list.None?
         || lab.None? || pri.None?
      then None
      else Some(UpdateTaskRequest(desc.value, date.value, start.value, est.value, complete.value,
                                  list.value, lab.value, pri.value))
  }

  lemma UpdateReadsTextFields(r: UpdateTaskRequest)
    ensures ReadOptStr(EncodeUpdateTaskRequest(r).members, "description") == Some(r.description)
    ensures ReadOptStr(EncodeUpdateTaskRequest(r).members, "date") == Some(r.date)
    ensures ReadOptStr(EncodeUpdateTaskRequest(r).members, "start") == Some(r.start)
  {
  }

  lemma UpdateReadsOtherFields(r: UpdateTaskRequest)
    ensures ReadOptInt(EncodeUpdateTaskRequest(r).members, "estimated_time") == Some(r.estimatedTime)
    ensures ReadOptBool(EncodeUpdateTaskRequest(r).members, "complete") == Some(r.complete)
    ensures ReadOptInt(EncodeUpdateTaskRequest(r).members, "priority") == Some(r.priority)
  {
  }

  lemma UpdateReadsRefFields(r: UpdateTaskRequest)
    ensures ReadOptStr(EncodeUpdateTaskRequest(r).members, "listId") == Some(r.listId)
    ensures ReadOptStr(EncodeUpdateTaskRequest(r).members, "label") == Some(r.labelId)
  {
  }

  /** What the service decodes from an update body is the request that was sent. */
  lemma UpdateTaskRequestRoundTrip(r: UpdateTaskRequest)
    ensures ReadUpdateTaskRequest(EncodeUpdateTaskRequest(r)) == Some(r)
  {
    UpdateReadsTextFields(r);
    UpdateReadsOtherFields(r);
    UpdateReadsRefFields(r);
  }

  datatype CreateLabelRequest = CreateLabelRequest(name: string, color: string)

  function EncodeCreateLabelRequest(r: CreateLabelRequest): (j: Json)
    ensures j.JObj? && j.members.Keys == {"name", "color"}
    ensures j.members["name"] == JStr(r.name) && j.members["color"] == JStr(r.color)
  {
    JObj(map["name" := JStr(r.name), "color" := JStr(r.color)])
  }

  datatype SearchRequest = SearchRequest(query: string)

  function EncodeSearchRequest(r: SearchRequest): (j: Json)
    ensures j.JObj? && j.members.Keys == {"query"} && j.members["query"] == JStr(r.query)
  {
    JObj(map["query" := JStr(r.query)])
  }

  datatype DeleteTaskRequest = DeleteTaskRequest(taskId: string)

  function EncodeDeleteTaskRequest(r: DeleteTaskRequest): (j: Json)
    ensures j.JObj? && j.members.Keys == {"taskId"} && j.members["taskId"] == JStr(r.taskId)
  {
    JObj(map["taskId" := JStr(r.taskId)])
  }
}
