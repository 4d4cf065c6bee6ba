/** How `tasks create` and `tasks update` turn their flags into request bodies. */
module TaskFlags {
  import opened Wrappers
  import opened Json
  import opened Models

  /** The flags of `tasks create`, with the defaults of the flag definitions for unset ones. */
  datatype CreateFlags = CreateFlags(desc: string, date: string, start: string, estimatedTime: int,
                                     listId: string, labelId: string, priority: int)

  /** The request `tasks create` sends: empty strings and non-positive numbers are left out. */
  function CreateRequestFor(f: CreateFlags): (r: CreateTaskRequest)
    ensures r.description == f.desc
    ensures r.date.Some? <==> f.date != ""
    ensures r.start.Some? <==> f.start != ""
    ensures r.estimatedTime.Some? <==> f.estimatedTime > 0
    ensures r.listId.Some? <==> f.listId != ""
    ensures r.labelId.Some? <==> f.labelId != ""
    ensures r.priority.Some? <==> f.priority > 0
    ensures r.date.Some? ==> r.date.value == f.date
    ensures r.start.Some? ==> r.start.value == f.start
    ensures r.estimatedTime.Some? ==> r.estimatedTime.value == f.estimatedTime
    ensures r.listId.Some? ==> r.listId.value == f.listId
    ensures r.labelId.Some? ==> r.labelId.value == f.labelId
    ensures r.priority.Some? ==> r.priority.value == f.priority
  {
    CreateTaskRequest(f.desc,
                      if f.date != "" then Some(f.date) else None,
                      if f.start != "" then Some(f.start) else None,
                      if f.estimatedTime > 0 then Some(f.estimatedTime) else None,
                      if f.listId != "" then Some(f.listId) else None,
                      if f.labelId != "" then Some(f.labelId) else None,
                      if f.priority > 0 then Some(f.priority) else None)
  }

  /** The `tasks create` if-chain. */
  method BuildCreateRequest(f: CreateFlags) returns (req: CreateTaskRequest)
    ensures req == CreateRequestFor(f)
  {
    req := CreateTaskRequest(f.desc, None, None, None, None, None, None);
    if f.date != "" {
      req := req.(date := Some(f.date));
    }
    if f.start != "" {
      req := req.(start := Some(f.start));
    }
    if f.estimatedTime > 0 {
      req := req.(estimatedTime := Some(f.estimatedTime));
    }
    if f.listId != "" {
      req := req.(listId := Some(f.listId));
    }
    if f.labelId != "" {
      req := req.(labelId := Some(f.labelId));
    }
    if f.priority > 0 {
      req := req.(priority := Some(f.priority));
    }
  }

  /** On the wire, `tasks create` sends the description and exactly the flags given a non-default value. */
  lemma CreateSendsGivenFlags(f: CreateFlags)
    ensures var j := EncodeCreateTaskRequest(CreateRequestFor(f));
      && j.JObj?
      && j.members["description"] == JStr(f.desc)
      && ("date" in j.members <==> f.date != "")
      && ("start" in j.members <==> f.start != "")
      && ("estimated_time" in j.members <==> f.estimatedTime > 0)
      && ("listId" in j.members <==> f.listId != "")
      && ("label" in j.members <==> f.labelId != "")
      && ("priority" in j.members <==> f.priority > 0)
  {
  }

  /** The flags of `tasks update`; `changed` holds the names of the flags given on the command line. */
  datatype UpdateFlags = UpdateFlags(desc: string, date: string, start: string, estimatedTime: int,
                                     complete: bool, listId: string, labelId: string, priority: int,
                                     changed: set<string>)

  const UpdateFlagNames: set<string> :=
    {"desc", "date", "start", "estimated-time", "complete", "list-id", "label", "priority"}

  /** The JSON key each `tasks update` flag sets. */
  function WireKey(flag: string): (k: string)
    requires flag in UpdateFlagNames
    ensures k in UpdateTaskKeys
  {
    match flag
    case "desc" => "description"
    case "estimated-time" => "estimated_time"
    case "list-id" => "listId"
    case _ => flag
  }

  /** The request `tasks update` sends: a field for every flag given, whatever its value. */
  function UpdateRequestFor(f: UpdateFlags): (r: UpdateTaskRequest)
    ensures r.description.Some? <==> "desc" in f.changed
    ensures r.date.Some? <==> "date" in f.changed
    ensures r.start.Some? <==> "start" in f.changed
    ensures r.estimatedTime.Some? <==> "estimated-time" in f.changed
    ensures r.complete.Some? <==> "complete" in f.changed
    ensures r.listId.Some? <==> "list-id" in f.changed
    ensures r.labelId.Some? <==> "label" in f.changed
    ensures r.priority.Some? <==> "priority" in f.changed
    ensures r.description.Some? ==> r.description.value == f.desc
    ensures r.date.Some? ==> r.date.value == f.date
    ensures r.start.Some? ==> r.start.value == f.start
    ensures r.estimatedTime.Some? ==> r.estimatedTime.value == f.estimatedTime
    ensures r.complete.Some? ==> r.complete.value == f.complete
    ensures r.listId.Some? ==> r.listId.value == f.listId
    ensures r.labelId.Some? ==> r.labelId.value == f.labelId
    ensures r.priority.Some? ==> r.priority.value == f.priority
  {
    UpdateTaskRequest(if "desc" in f.changed then Some(f.desc) else None,
                      if "date" in f.changed then Some(f.date) else None,
                      if "start" in f.changed then Some(f.start) else None,
                      if "estimated-time" in f.changed then Some(f.estimatedTime) else None,
                      if "complete" in f.changed then Some(f.complete) else None,
                      if "list-id" in f.changed then Some(f.listId) else None,
                      if "label" in f.changed then Some(f.labelId) else None,
                      if "priority" in f.changed then Some(f.priority) else None)
  }

  /** The `tasks update` if-chain over `cmd.Flags().Changed`. */
  method BuildUpdateRequest(f: UpdateFlags) returns (req: UpdateTaskRequest)
    ensures req == UpdateRequestFor(f)
  {
    req := EmptyUpdate;
    if "desc" in f.changed {
      req := req.(description := Some(f.desc));
    }
    if "date" in f.changed {
      req := req.(date := Some(f.date));
    }
    if "start" in f.changed {
      req := req.(start := Some(f.start));
    }
    if "estimated-time" in f.changed {
      req := req.(estimatedTime := Some(f.estimatedTime));
    }
    if "complete" in f.changed {
      req := req.(complete := Some(f.complete));
    }
    if "list-id" in f.changed {
      req := req.(listId := Some(f.listId));
    }
    if "label" in f.changed {
      req := req.(labelId := Some(f.labelId));
    }
    if "priority" in f.changed {
      req := req.(priority := Some(f.priority));
    }
  }

  /** On the wire, `tasks update` sends a member exactly for each flag that was given. */
  lemma UpdateSendsChangedFlags(f: UpdateFlags, flag: string)
    requires flag in UpdateFlagNames
    ensures HasKey(EncodeUpdateTaskRequest(UpdateRequestFor(f)), WireKey(flag)) <==> flag in f.changed
  {
    var j := EncodeUpdateTaskRequest(UpdateRequestFor(f));
    assert flag == "desc" || flag == "date" || flag == "start" || flag == "estimated-time"
        || flag == "complete" || flag == "list-id" || flag == "label" || flag == "priority";
  }

  /** With no update flag given, the request is the empty JSON object. */
  lemma NoFlagsSendsEmptyObject(f: UpdateFlags)
    requires forall flag :: flag in UpdateFlagNames ==> flag !in f.changed
    ensures EncodeUpdateTaskRequest(UpdateRequestFor(f)) == JObj(map[])
  {
    assert "desc" in UpdateFlagNames && "estimated-time" in UpdateFlagNames && "list-id" in UpdateFlagNames;
    assert UpdateRequestFor(f) == EmptyUpdate;
    EmptyUpdateIsEmptyObject();
  }
}
