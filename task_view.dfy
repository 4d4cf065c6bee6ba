/** How the `tasks` commands print tasks: `printTask`, `priorityString`, `outputTask` and `outputTasks`. */
module TaskView {
  import opened Text
  import opened Json
  import opened Output
  import opened Models

  /** `priorityString`. */
  function PriorityString(p: int): (r: string)
    ensures p == 1 ==> r == "Low"
    ensures p == 2 ==> r == "Medium"
    ensures p == 3 ==> r == "High"
    ensures p == 4 ==> r == "Urgent"
    ensures !(1 <= p <= 4) ==> r == Decimal(p)
  {
    match p
    case 1 => "Low"
    case 2 => "Medium"
    case 3 => "High"
    case 4 => "Urgent"
    case _ => Decimal(p)
  }

  /** Different priorities never look alike: a name is never a number. */
  lemma PriorityStringInjective(p: int, q: int)
    requires PriorityString(p) == PriorityString(q)
    ensures p == q
  {
    var s := PriorityString(p);
    if !(1 <= p <= 4) && !(1 <= q <= 4) {
      DecimalInjective(p, q);
    } else if !(1 <= p <= 4) || !(1 <= q <= 4) {
      assert false;
    }
  }

  function Status(task: Task): string {
    if task.complete then "[x]" else "[ ]"
  }

  /** One detail line, printed only when its condition holds. */
  function Detail(shown: bool, tag: string, value: string): (r: seq<Line>)
    ensures r != [] <==> shown
    ensures shown ==> r == [Plain(tag + value)]
  {
    if shown then [Plain(tag + value)] else []
  }

  lemma DetailTagged(shown: bool, tag: string, value: string)
    ensures Tagged(Detail(shown, tag, value), tag)
  {
    assert (tag + value)[..|tag|] == tag;
  }

  const StatusTag := "["
  const IdTag := "    ID: "
  const DateTag := "    Date: "
  const StartTag := "    Start: "
  const EstimateTag := "    Estimated: "
  const PriorityTag := "    Priority: "
  const LabelTag := "    Label: "
  const ListTag := "    List: "

  function StatusLine(task: Task): (r: seq<Line>)
    ensures |r| == 1
  {
    [Plain(Status(task) + " " + task.description)]
  }

  function IdLine(task: Task): (r: seq<Line>)
    ensures |r| == 1
  {
    Detail(true, IdTag, task.id)
  }

  function DateLine(task: Task): (r: seq<Line>)
  {
    Detail(GetDateString(task) != "", DateTag, GetDateString(task))
  }

  function StartLine(task: Task): (r: seq<Line>)
  {
    Detail(GetStartString(task) != "", StartTag, GetStartString(task))
  }

  /** The Go code's `*EstimatedTime > 0` and `minutes > 0` tests together mean at least 60 seconds. */
  function EstimateLine(task: Task): (r: seq<Line>)
  {
    var seconds := if task.estimatedTime.Some? then task.estimatedTime.value else 0;
    Detail(seconds >= 60, EstimateTag, Decimal(seconds / 60) + " min")
  }

  function PriorityLine(task: Task): (r: seq<Line>)
  {
    Detail(task.priority.Some?, PriorityTag, PriorityString(if task.priority.Some? then task.priority.value else 0))
  }

  function LabelLine(task: Task): (r: seq<Line>)
  {
    Detail(task.labelId.Some?, LabelTag, if task.labelId.Some? then task.labelId.value else "")
  }

  function ListLine(task: Task): (r: seq<Line>)
  {
    Detail(task.listId.Some?, ListTag, if task.listId.Some? then task.listId.value else "")
  }

  /** Each line `printTask` may write starts with its own tag. */
  lemma LinesTagged(task: Task)
    ensures Tagged(StatusLine(task), StatusTag) && Tagged(IdLine(task), IdTag)
    ensures Tagged(DateLine(task), DateTag) && Tagged(StartLine(task), StartTag)
    ensures Tagged(EstimateLine(task), EstimateTag) && Tagged(PriorityLine(task), PriorityTag)
    ensures Tagged(LabelLine(task), LabelTag) && Tagged(ListLine(task), ListTag)
  {
    var text := Status(task) + " " + task.description;
    assert text[..1] == "[";
    DetailTagged(true, IdTag, task.id);
    DetailTagged(GetDateString(task) != "", DateTag, GetDateString(task));
    DetailTagged(GetStartString(task) != "", StartTag, GetStartString(task));
    var seconds := if task.estimatedTime.Some? then task.estimatedTime.value else 0;
    DetailTagged(seconds >= 60, EstimateTag, Decimal(seconds / 60) + " min");
    DetailTagged(task.priority.Some?, PriorityTag, PriorityString(if task.priority.Some? then task.priority.value else 0));
    DetailTagged(task.labelId.Some?, LabelTag, if task.labelId.Some? then task.labelId.value else "");
    DetailTagged(task.listId.Some?, ListTag, if task.listId.Some? then task.listId.value else "");
  }

  /** What `printTask` prints, one element per line. */
  function TaskLines(task: Task): (r: seq<Line>)
    ensures |r| >= 2
    ensures r[0] == Plain(Status(task) + " " + task.description)
    ensures r[1] == Plain(IdTag + task.id)
  {
    StatusLine(task) + IdLine(task) + DateLine(task) + StartLine(task) + EstimateLine(task)
    + PriorityLine(task) + LabelLine(task) + ListLine(task)
  }

  lemma WholeMinutes(seconds: int)
    requires seconds > 0
    ensures seconds / 60 > 0 <==> seconds >= 60
  {
  }

  /** `printTask`. */
  method PrintTask(task: Task) returns (lines: seq<Line>)
    ensures lines == TaskLines(task)
  {
    var status := "[ ]";
    if task.complete {
      status := "[x]";
    }
    lines := [Plain(status + " " + task.description)];
    lines := lines + [Plain(IdTag + task.id)];
    assert lines == StatusLine(task) + IdLine(task);
    var dateLine: seq<Line> := [];
    var dateStr := GetDateString(task);
    if dateStr != "" {
      dateLine := [Plain(DateTag + dateStr)];
    }
    assert dateLine == DateLine(task);
    lines := lines + dateLine;
    var startLine: seq<Line> := [];
    var startStr := GetStartString(task);
    if startStr != "" {
      startLine := [Plain(StartTag + startStr)];
    }
    assert startLine == StartLine(task);
    lines := lines + startLine;
    var estimateLine: seq<Line> := [];
    if task.estimatedTime.Some? && task.estimatedTime.value > 0 {
      var minutes := task.estimatedTime.value / 60;
      WholeMinutes(task.estimatedTime.value);
      if minutes > 0 {
        estimateLine := [Plain(EstimateTag + (Decimal(minutes) + " min"))];
      }
    }
    assert estimateLine == EstimateLine(task);
    lines := lines + estimateLine;
    var priorityLine: seq<Line> := [];
    if task.priority.Some? {
      priorityLine := [Plain(PriorityTag + PriorityString(task.priority.value))];
    }
    assert priorityLine == PriorityLine(task);
    lines := lines + priorityLine;
    var labelLine: seq<Line> := [];
    if task.labelId.Some? {
      labelLine := [Plain(LabelTag + task.labelId.value)];
    }
    assert labelLine == LabelLine(task);
    lines := lines + labelLine;
    var listLine: seq<Line> := [];
    if task.listId.Some? {
      listLine := [Plain(ListTag + task.listId.value)];
    }
    assert listLine == ListLine(task);
    lines := lines + listLine;
  }

  /** The first line shows "[x]" exactly for a completed task, then the description. */
  lemma StatusShowsCompletion(task: Task)
    ensures TaskLines(task)[0].Plain?
    ensures TaskLines(task)[0].text[..3] == "[x]" <==> task.complete
    ensures TaskLines(task)[0].text[4..] == task.description
  {
    assert TaskLines(task)[0] == StatusLine(task)[0];
    var text := Status(task) + " " + task.description;
    assert text[..3] == Status(task);
  }

  /** `Shows(TaskLines(task), p)` for three tags comes down to the one line carrying that tag. */
  lemma ShowsTaskLines(task: Task)
    ensures Shows(TaskLines(task), DateTag) <==> Shows(DateLine(task), DateTag)
    ensures Shows(TaskLines(task), EstimateTag) <==> Shows(EstimateLine(task), EstimateTag)
    ensures Shows(TaskLines(task), PriorityTag) <==> Shows(PriorityLine(task), PriorityTag)
  {
    var st, id, da, sa, es := StatusLine(task), IdLine(task), DateLine(task), StartLine(task), EstimateLine(task);
    var pr, la, li := PriorityLine(task), LabelLine(task), ListLine(task);
    LinesTagged(task);
    ShowsConcat8(st, id, da, sa, es, pr, la, li, DateTag);
    ShowsConcat8(st, id, da, sa, es, pr, la, li, EstimateTag);
    ShowsConcat8(st, id, da, sa, es, pr, la, li, PriorityTag);
    HidesFrom(st, StatusTag, 0);
    HidesFrom(id, IdTag, 4);
    HidesFrom(sa, StartTag, 4);
    HidesFrom(la, LabelTag, 4);
    HidesFrom(li, ListTag, 4);
    TaggedHides(da, DateTag, EstimateTag, 4);
    TaggedHides(da, DateTag, PriorityTag, 4);
    TaggedHides(es, EstimateTag, DateTag, 4);
    TaggedHides(es, EstimateTag, PriorityTag, 4);
    TaggedHides(pr, PriorityTag, DateTag, 4);
    TaggedHides(pr, PriorityTag, EstimateTag, 4);
  }

  /** `Shows(TaskLines(task), p)` for the other three optional tags comes down to the line carrying it. */
  lemma ShowsMoreTaskLines(task: Task)
    ensures Shows(TaskLines(task), StartTag) <==> Shows(StartLine(task), StartTag)
    ensures Shows(TaskLines(task), LabelTag) <==> Shows(LabelLine(task), LabelTag)
    ensures Shows(TaskLines(task), ListTag) <==> Shows(ListLine(task), ListTag)
  {
    var st, id, da, sa, es := StatusLine(task), IdLine(task), DateLine(task), StartLine(task), EstimateLine(task);
    var pr, la, li := PriorityLine(task), LabelLine(task), ListLine(task);
    LinesTagged(task);
    ShowsConcat8(st, id, da, sa, es, pr, la, li, StartTag);
    ShowsConcat8(st, id, da, sa, es, pr, la, li, LabelTag);
    ShowsConcat8(st, id, da, sa, es, pr, la, li, ListTag);
    HidesFromMore(st, StatusTag, 0);
    HidesFromMore(id, IdTag, 4);
    HidesFromMore(da, DateTag, 4);
    HidesFromMore(es, EstimateTag, 4);
    HidesFromMore(pr, PriorityTag, 4);
    TaggedHides(sa, StartTag, LabelTag, 4);
    TaggedHides(sa, StartTag, ListTag, 4);
    TaggedHides(la, LabelTag, StartTag, 4);
    TaggedHides(la, LabelTag, ListTag, 5);
    TaggedHides(li, ListTag, StartTag, 4);
    TaggedHides(li, ListTag, LabelTag, 5);
  }

  /** A line tagged `tag` shows none of the start, label and list tags. */
  lemma HidesFromMore(lines: seq<Line>, tag: string, k: nat)
    requires Tagged(lines, tag) && k < |tag| && k <= 4
    requires tag[k] != StartTag[k] && tag[k] != LabelTag[k] && tag[k] != ListTag[k]
    ensures !Shows(lines, StartTag) && !Shows(lines, LabelTag) && !Shows(lines, ListTag)
  {
    TaggedHides(lines, tag, StartTag, k);
    TaggedHides(lines, tag, LabelTag, k);
    TaggedHides(lines, tag, ListTag, k);
  }

  /** A line tagged `tag` shows none of the three tags the lemmas above look for. */
  lemma HidesFrom(lines: seq<Line>, tag: string, k: nat)
    requires Tagged(lines, tag) && k < |tag| && k <= 4
    requires tag[k] != DateTag[k] && tag[k] != EstimateTag[k] && tag[k] != PriorityTag[k]
    ensures !Shows(lines, DateTag) && !Shows(lines, EstimateTag) && !Shows(lines, PriorityTag)
  {
    TaggedHides(lines, tag, DateTag, k);
    TaggedHides(lines, tag, EstimateTag, k);
    TaggedHides(lines, tag, PriorityTag, k);
  }

  lemma DetailShown(task: Task, lines: seq<Line>, tag: string, shown: bool)
    requires Tagged(lines, tag) && (lines != [] <==> shown)
    ensures Shows(lines, tag) <==> shown
  {
    if shown {
      TaggedShows(lines, tag);
    }
  }

  /** The estimate is printed exactly when the task has one of at least a minute, in whole minutes. */
  lemma EstimateShownIff(task: Task)
    ensures Shows(TaskLines(task), EstimateTag) <==>
            task.estimatedTime.Some? && task.estimatedTime.value >= 60
    ensures task.estimatedTime.Some? && task.estimatedTime.value >= 60 ==>
            Plain(EstimateTag + (Decimal(task.estimatedTime.value / 60) + " min")) in TaskLines(task)
  {
    ShowsTaskLines(task);
    LinesTagged(task);
    var seconds := if task.estimatedTime.Some? then task.estimatedTime.value else 0;
    DetailShown(task, EstimateLine(task), EstimateTag, seconds >= 60);
    if seconds >= 60 {
      assert Plain(EstimateTag + (Decimal(seconds / 60) + " min")) in EstimateLine(task);
    }
  }

  /** The date is printed exactly when the task's date member is a non-empty JSON string. */
  lemma DateShownIff(task: Task)
    ensures Shows(TaskLines(task), DateTag) <==> task.date.Str? && task.date.s != ""
  {
    ShowsTaskLines(task);
    LinesTagged(task);
    DetailShown(task, DateLine(task), DateTag, GetDateString(task) != "");
  }

  /** A priority line is printed exactly when the task has a priority. */
  lemma PriorityShownIff(task: Task)
    ensures Shows(TaskLines(task), PriorityTag) <==> task.priority.Some?
  {
    ShowsTaskLines(task);
    LinesTagged(task);
    DetailShown(task, PriorityLine(task), PriorityTag, task.priority.Some?);
  }

  /** The start is printed exactly when the task's start member is a non-empty JSON string, as itself. */
  lemma StartShownIff(task: Task)
    ensures Shows(TaskLines(task), StartTag) <==> task.start.Str? && task.start.s != ""
    ensures task.start.Str? && task.start.s != "" ==> Plain(StartTag + task.start.s) in TaskLines(task)
  {
    ShowsMoreTaskLines(task);
    LinesTagged(task);
    DetailShown(task, StartLine(task), StartTag, GetStartString(task) != "");
    if task.start.Str? && task.start.s != "" {
      assert Plain(StartTag + task.start.s) in StartLine(task);
    }
  }

  /** A label line is printed exactly when the task has a label, showing the label's id. */
  lemma LabelShownIff(task: Task)
    ensures Shows(TaskLines(task), LabelTag) <==> task.labelId.Some?
    ensures task.labelId.Some? ==> Plain(LabelTag + task.labelId.value) in TaskLines(task)
  {
    ShowsMoreTaskLines(task);
    LinesTagged(task);
    DetailShown(task, LabelLine(task), LabelTag, task.labelId.Some?);
    if task.labelId.Some? {
      assert Plain(LabelTag + task.labelId.value) in LabelLine(task);
    }
  }

  /** A list line is printed exactly when the task belongs to a list, showing the list's id. */
  lemma ListShownIff(task: Task)
    ensures Shows(TaskLines(task), ListTag) <==> task.listId.Some?
    ensures task.listId.Some? ==> Plain(ListTag + task.listId.value) in TaskLines(task)
  {
    ShowsMoreTaskLines(task);
    LinesTagged(task);
    DetailShown(task, ListLine(task), ListTag, task.listId.Some?);
    if task.listId.Some? {
      assert Plain(ListTag + task.listId.value) in ListLine(task);
    }
  }

  /** No line `printTask` writes is empty, so the blank lines between tasks are the only blank ones. */
  lemma TaskLinesNotBlank(task: Task)
    ensures Blanks(TaskLines(task)) == 0
  {
    var st, id, da, sa, es := StatusLine(task), IdLine(task), DateLine(task), StartLine(task), EstimateLine(task);
    var pr, la, li := PriorityLine(task), LabelLine(task), ListLine(task);
    assert TaskLines(task) == st + id + da + sa + es + pr + la + li;
    LinesTagged(task);
    TaggedNoBlanks(st, StatusTag);
    TaggedNoBlanks(id, IdTag);
    TaggedNoBlanks(da, DateTag);
    TaggedNoBlanks(sa, StartTag);
    TaggedNoBlanks(es, EstimateTag);
    TaggedNoBlanks(pr, PriorityTag);
    TaggedNoBlanks(la, LabelTag);
    TaggedNoBlanks(li, ListTag);
    BlanksAppend(st + id + da + sa + es + pr + la, li);
    BlanksAppend(st + id + da + sa + es + pr, la);
    BlanksAppend(st + id + da + sa + es, pr);
    BlanksAppend(st + id + da + sa, es);
    BlanksAppend(st + id + da, sa);
    BlanksAppend(st + id, da);
    BlanksAppend(st, id);
  }

  // ------------------------------------------------------------ outputTask / outputTasks

  const NoTasksFound := "No tasks found"

  function EncodeTasks(tasks: seq<Task>): (j: Json)
    ensures j.JArr? && |j.items| == |tasks|
    ensures forall i :: 0 <= i < |tasks| ==> j.items[i] == EncodeTask(tasks[i])
  {
    JArr(seq(|tasks|, i requires 0 <= i < |tasks| => EncodeTask(tasks[i])))
  }

  /** The text form of several tasks: each task's lines, with one blank line between tasks. */
  function TasksText(tasks: seq<Task>): seq<Line>
    decreases |tasks|
  {
    if |tasks| == 0 then []
    else if |tasks| == 1 then TaskLines(tasks[0])
    else TasksText(tasks[..|tasks| - 1]) + [Plain("")] + TaskLines(tasks[|tasks| - 1])
  }

  function TaskOutput(task: Task, json: bool): seq<Line> {
    if json then [Document(EncodeTask(task))] else TaskLines(task)
  }

  function TasksOutput(tasks: seq<Task>, json: bool): seq<Line> {
    if json then [Document(EncodeTasks(tasks))]
    else if |tasks| == 0 then [Plain(NoTasksFound)]
    else TasksText(tasks)
  }

  /** `outputTask`. */
  method OutputTask(task: Task, json: bool) returns (out: seq<Line>)
    ensures out == TaskOutput(task, json)
  {
    if json {
      out := [Document(EncodeTask(task))];
    } else {
      out := PrintTask(task);
    }
  }

  /** `outputTasks`. */
  method OutputTasks(tasks: seq<Task>, json: bool) returns (out: seq<Line>)
    ensures out == TasksOutput(tasks, json)
  {
    if json {
      return [Document(EncodeTasks(tasks))];
    }
    if |tasks| == 0 {
      return [Plain(NoTasksFound)];
    }
    out := [];
    var i := 0;
    while i < |tasks|
      invariant 0 <= i <= |tasks|
      invariant out == TasksText(tasks[..i])
    {
      if i > 0 {
        out := out + [Plain("")];
      }
      var lines := PrintTask(tasks[i]);
      out := out + lines;
      TasksTextStep(tasks, i);
      i := i + 1;
    }
    assert tasks[..|tasks|] == tasks;
  }

  lemma TasksTextStep(tasks: seq<Task>, i: nat)
    requires i < |tasks|
    ensures TasksText(tasks[..i + 1])
         == TasksText(tasks[..i]) + (if i > 0 then [Plain("")] else []) + TaskLines(tasks[i])
  {
    assert tasks[..i + 1][..i] == tasks[..i];
    assert tasks[..i + 1][i] == tasks[i];
    if i == 0 {
      assert TasksText(tasks[..0]) == [];
    }
  }

  lemma {:induction false} TasksTextLength(tasks: seq<Task>)
    ensures |TasksText(tasks)| >= 2 * |tasks|
    decreases |tasks|
  {
    if |tasks| > 1 {
      TasksTextLength(tasks[..|tasks| - 1]);
    }
  }

  /** Exactly one blank line separates consecutive tasks. */
  lemma {:induction false} TasksSeparated(tasks: seq<Task>)
    requires |tasks| > 0
    ensures Blanks(TasksText(tasks)) == |tasks| - 1
    decreases |tasks|
  {
    TaskLinesNotBlank(tasks[|tasks| - 1]);
    if |tasks| > 1 {
      var front := tasks[..|tasks| - 1];
      TasksSeparated(front);
      BlanksAppend(TasksText(front) + [Plain("")], TaskLines(tasks[|tasks| - 1]));
      BlanksAppend(TasksText(front), [Plain("")]);
      assert Blanks([Plain("")]) == 1 by {
        assert [Plain("")][..0] == [];
      }
    }
  }

  /** "No tasks found" is the whole output exactly in text mode with no tasks; JSON mode never prints it. */
  lemma NoTasksMessageIff(tasks: seq<Task>, json: bool)
    ensures TasksOutput(tasks, json) == [Plain(NoTasksFound)] <==> !json && tasks == []
  {
    if !json && tasks != [] {
      TasksTextLength(tasks);
    }
  }
}
