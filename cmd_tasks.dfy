/** The `tasks` commands: required flags first, then the client, the call and the output. */
module CmdTasks {
  import opened Wrappers
  import opened Errors
  import opened Output
  import opened Models
  import opened Client
  import opened Api
  import opened Cli
  import opened TaskView
  import opened TaskFlags

  /** `tasks get <id>`. */
  method RunGet(ctx: Context, taskId: string) returns (out: seq<Line>, err: Option<Error>)
    ensures ClientOf(ctx).Failure? ==> NoClient(ctx, out, err)
    ensures ClientOf(ctx).Success? ==>
      var r := GetTask(ClientOf(ctx).value, ctx.transport, ctx.codec, taskId);
      Reported(out, err, r, if r.Success? then TaskOutput(r.value, ctx.json) else [])
  {
    var client := ClientOf(ctx);
    if client.Failure? {
      return [], Some(client.error);
    }
    var r := GetTask(client.value, ctx.transport, ctx.codec, taskId);
    if r.Failure? {
      return [], Some(r.error);
    }
    out := OutputTask(r.value, ctx.json);
    err := None;
  }

  /** `tasks list`: `--date` is checked before any key is looked up. */
  method RunList(ctx: Context, date: string, timeZone: string) returns (out: seq<Line>, err: Option<Error>)
    ensures date == "" ==> out == [] && err == Some(FlagRequired("date"))
    ensures date != "" && ClientOf(ctx).Failure? ==> NoClient(ctx, out, err)
    ensures date != "" && ClientOf(ctx).Success? ==>
      var r := GetTasksByDate(ClientOf(ctx).value, ctx.transport, ctx.codec, date, timeZone);
      Reported(out, err, r, if r.Success? then TasksOutput(r.value, ctx.json) else [])
  {
    if date == "" {
      return [], Some(FlagRequired("date"));
    }
    var client := ClientOf(ctx);
    if client.Failure? {
      return [], Some(client.error);
    }
    var r := GetTasksByDate(client.value, ctx.transport, ctx.codec, date, timeZone);
    if r.Failure? {
      return [], Some(r.error);
    }
    out := OutputTasks(r.value, ctx.json);
    err := None;
  }

  /** `tasks by-list`: `--list-id` is checked before any key is looked up. */
  method RunByList(ctx: Context, listId: string) returns (out: seq<Line>, err: Option<Error>)
    ensures listId == "" ==> out == [] && err == Some(FlagRequired("list-id"))
    ensures listId != "" && ClientOf(ctx).Failure? ==> NoClient(ctx, out, err)
    ensures listId != "" && ClientOf(ctx).Success? ==>
      var r := GetTasksByList(ClientOf(ctx).value, ctx.transport, ctx.codec, listId);
      Reported(out, err, r, if r.Success? then TasksOutput(r.value, ctx.json) else [])
  {
    if listId == "" {
      return [], Some(FlagRequired("list-id"));
    }
    var client := ClientOf(ctx);
    if client.Failure? {
      return [], Some(client.error);
    }
    var r := GetTasksByList(client.value, ctx.transport, ctx.codec, listId);
    if r.Failure? {
      return [], Some(r.error);
    }
    out := OutputTasks(r.value, ctx.json);
    err := None;
  }

  /** `tasks braindump`. */
  method RunBraindump(ctx: Context) returns (out: seq<Line>, err: Option<Error>)
    ensures ClientOf(ctx).Failure? ==> NoClient(ctx, out, err)
    ensures ClientOf(ctx).Success? ==>
      var r := GetBraindump(ClientOf(ctx).value, ctx.transport, ctx.codec);
      Reported(out, err, r, if r.Success? then TasksOutput(r.value, ctx.json) else [])
  {
    var client := ClientOf(ctx);
    if client.Failure? {
      return [], Some(client.error);
    }
    var r := GetBraindump(client.value, ctx.transport, ctx.codec);
    if r.Failure? {
      return [], Some(r.error);
    }
    out := OutputTasks(r.value, ctx.json);
    err := None;
  }

  /** `tasks create`: `--desc` is checked first, and the request is built before the client. */
  method RunCreate(ctx: Context, f: CreateFlags) returns (out: seq<Line>, err: Option<Error>)
    ensures f.desc == "" ==> out == [] && err == Some(FlagRequired("desc"))
    ensures f.desc != "" && ClientOf(ctx).Failure? ==> NoClient(ctx, out, err)
    ensures f.desc != "" && ClientOf(ctx).Success? ==>
      var r := CreateTask(ClientOf(ctx).value, ctx.transport, ctx.codec, CreateRequestFor(f));
      Reported(out, err, r, if r.Success? then TaskOutput(r.value, ctx.json) else [])
  {
    if f.desc == "" {
      return [], Some(FlagRequired("desc"));
    }
    var req := BuildCreateRequest(f);
    var client := ClientOf(ctx);
    if client.Failure? {
      return [], Some(client.error);
    }
    var r := CreateTask(client.value, ctx.transport, ctx.codec, req);
    if r.Failure? {
      return [], Some(r.error);
    }
    out := OutputTask(r.value, ctx.json);
    err := None;
  }

  /** `tasks update <id>`. */
  method RunUpdate(ctx: Context, taskId: string, f: UpdateFlags) returns (out: seq<Line>, err: Option<Error>)
    ensures ClientOf(ctx).Failure? ==> NoClient(ctx, out, err)
    ensures ClientOf(ctx).Success? ==>
      var r := UpdateTask(ClientOf(ctx).value, ctx.transport, ctx.codec, taskId, UpdateRequestFor(f));
      Reported(out, err, r, if r.Success? then TaskOutput(r.value, ctx.json) else [])
  {
    var req := BuildUpdateRequest(f);
    var client := ClientOf(ctx);
    if client.Failure? {
      return [], Some(client.error);
    }
    var r := UpdateTask(client.value, ctx.transport, ctx.codec, taskId, req);
    if r.Failure? {
      return [], Some(r.error);
    }
    out := OutputTask(r.value, ctx.json);
    err := None;
  }

  /** `tasks complete <id>`. */
  method RunComplete(ctx: Context, taskId: string) returns (out: seq<Line>, err: Option<Error>)
    ensures ClientOf(ctx).Failure? ==> NoClient(ctx, out, err)
    ensures ClientOf(ctx).Success? ==>
      var r := MarkTaskComplete(ClientOf(ctx).value, ctx.transport, ctx.codec, taskId);
      Reported(out, err, r, if r.Success? then TaskOutput(r.value, ctx.json) else [])
  {
    var client := ClientOf(ctx);
    if client.Failure? {
      return [], Some(client.error);
    }
    var r := MarkTaskComplete(client.value, ctx.transport, ctx.codec, taskId);
    if r.Failure? {
      return [], Some(r.error);
    }
    out := OutputTask(r.value, ctx.json);
    err := None;
  }

  const TaskDeleted := "Task deleted successfully"

  /** `tasks delete <id>`: the confirmation is printed in text mode only. */
  method RunDelete(ctx: Context, taskId: string) returns (out: seq<Line>, err: Option<Error>)
    ensures ClientOf(ctx).Failure? ==> NoClient(ctx, out, err)
    ensures ClientOf(ctx).Success? ==>
      var e := DeleteTask(ClientOf(ctx).value, ctx.transport, taskId);
      (e.Some? ==> out == [] && err == e)
      && (e.None? ==> err == None && out == (if ctx.json then [] else [Plain(TaskDeleted)]))
  {
    var client := ClientOf(ctx);
    if client.Failure? {
      return [], Some(client.error);
    }
    var e := DeleteTask(client.value, ctx.transport, taskId);
    if e.Some? {
      return [], e;
    }
    out := [];
    if !ctx.json {
      out := [Plain(TaskDeleted)];
    }
    err := None;
  }

  /** `tasks search <query>`. */
  method RunSearch(ctx: Context, query: string) returns (out: seq<Line>, err: Option<Error>)
    ensures ClientOf(ctx).Failure? ==> NoClient(ctx, out, err)
    ensures ClientOf(ctx).Success? ==>
      var r := SearchTasks(ClientOf(ctx).value, ctx.transport, ctx.codec, query);
      Reported(out, err, r, if r.Success? then TasksOutput(r.value, ctx.json) else [])
  {
    var client := ClientOf(ctx);
    if client.Failure? {
      return [], Some(client.error);
    }
    var r := SearchTasks(client.value, ctx.transport, ctx.codec, query);
    if r.Failure? {
      return [], Some(r.error);
    }
    out := OutputTasks(r.value, ctx.json);
    err := None;
  }

  /** `tasks agenda`; the client call it makes is given as `tasksForDate`. */
  method RunAgenda(ctx: Context, tasksForDate: (Client, string) -> Result<seq<Task>, Error>, date: string)
    returns (out: seq<Line>, err: Option<Error>)
    ensures date == "" ==> out == [] && err == Some(FlagRequired("date"))
    ensures date != "" && ClientOf(ctx).Failure? ==> NoClient(ctx, out, err)
    ensures date != "" && ClientOf(ctx).Success? ==>
      var r := tasksForDate(ClientOf(ctx).value, date);
      Reported(out, err, r, if r.Success? then TasksOutput(r.value, ctx.json) else [])
  {
    if date == "" {
      return [], Some(FlagRequired("date"));
    }
    var client := ClientOf(ctx);
    if client.Failure? {
      return [], Some(client.error);
    }
    var r := tasksForDate(client.value, date);
    if r.Failure? {
      return [], Some(r.error);
    }
    out := OutputTasks(r.value, ctx.json);
    err := None;
  }
}
