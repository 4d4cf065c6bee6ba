/** The `labels` commands and how labels are printed. */
module CmdLabels {
  import opened Wrappers
  import opened Text
  import opened Json
  import opened Errors
  import opened Output
  import opened Models
  import opened Client
  import opened Api
  import opened Cli

  const LabelBullet := "• "
  const LabelIdLead := "  ID: "

  /** What `printLabel` prints: the bullet line with the name and colour, then the indented id. */
  function LabelLines(l: Label): (r: seq<Line>)
    ensures |r| == 2
    ensures r[0] == Plain(LabelBullet + l.name + " (" + l.color + ")")
    ensures r[1] == Plain(LabelIdLead + l.id)
  {
    [Plain(LabelBullet + l.name + " (" + l.color + ")"), Plain(LabelIdLead + l.id)]
  }

  /** In a printed list, label k's bullet line starts with its name and its id line ends with its id. */
  lemma LabelPrinted(labels: seq<Label>, k: nat)
    requires k < |labels|
    ensures 2 * k + 1 < |LabelsText(labels)|
    ensures var bullet := LabelsText(labels)[2 * k];
      bullet.Plain? && HasPrefix(bullet.text, LabelBullet + labels[k].name)
    ensures var id := LabelsText(labels)[2 * k + 1];
      id.Plain? && |LabelIdLead| <= |id.text| && id.text[|LabelIdLead|..] == labels[k].id
  {
    LabelsTextLayout(labels);
    var text := LabelsText(labels);
    var l := labels[k];
    assert text[2 * k] == text[2 * k..2 * k + 2][0] == LabelLines(l)[0];
    assert text[2 * k + 1] == text[2 * k..2 * k + 2][1] == LabelLines(l)[1];
    var t := LabelBullet + l.name + " (" + l.color + ")";
    assert t[..|LabelBullet + l.name|] == LabelBullet + l.name;
  }

  /** The text form of several labels: each label's two lines, with no separator. */
  function LabelsText(labels: seq<Label>): seq<Line>
    decreases |labels|
  {
    if labels == [] then [] else LabelsText(labels[..|labels| - 1]) + LabelLines(labels[|labels| - 1])
  }

  function EncodeLabels(labels: seq<Label>): (j: Json)
    ensures j.JArr? && |j.items| == |labels|
    ensures forall i :: 0 <= i < |labels| ==> j.items[i] == EncodeLabel(labels[i])
  {
    JArr(seq(|labels|, i requires 0 <= i < |labels| => EncodeLabel(labels[i])))
  }

  function LabelOutput(l: Label, json: bool): seq<Line> {
    if json then [Document(EncodeLabel(l))] else LabelLines(l)
  }

  const NoLabelsFound := "No labels found"

  function LabelsOutput(labels: seq<Label>, json: bool): seq<Line> {
    if json then [Document(EncodeLabels(labels))]
    else if labels == [] then [Plain(NoLabelsFound)]
    else LabelsText(labels)
  }

  /** `outputLabels`. */
  method OutputLabels(labels: seq<Label>, json: bool) returns (out: seq<Line>)
    ensures out == LabelsOutput(labels, json)
  {
    if json {
      return [Document(EncodeLabels(labels))];
    }
    if |labels| == 0 {
      return [Plain(NoLabelsFound)];
    }
    out := [];
    for i := 0 to |labels|
      invariant out == LabelsText(labels[..i])
    {
      assert labels[..i + 1][..i] == labels[..i];
      out := out + LabelLines(labels[i]);
    }
    assert labels[..|labels|] == labels;
  }

  /** Label `k` occupies lines `2k` and `2k + 1`, in the order the labels came. */
  lemma {:induction false} LabelsTextLayout(labels: seq<Label>)
    ensures |LabelsText(labels)| == 2 * |labels|
    ensures forall k :: 0 <= k < |labels| ==> LabelsText(labels)[2 * k..2 * k + 2] == LabelLines(labels[k])
    decreases |labels|
  {
    if labels != [] {
      var front := labels[..|labels| - 1];
      LabelsTextLayout(front);
      var text := LabelsText(labels);
      assert text == LabelsText(front) + LabelLines(labels[|labels| - 1]);
      forall k | 0 <= k < |labels|
        ensures text[2 * k..2 * k + 2] == LabelLines(labels[k])
      {
        if k < |front| {
          assert text[2 * k..2 * k + 2] == LabelsText(front)[2 * k..2 * k + 2];
          assert front[k] == labels[k];
        } else {
          assert text[2 * k..2 * k + 2] == LabelLines(labels[|labels| - 1]);
        }
      }
    }
  }

  /** "No labels found" is the whole output exactly in text mode with no labels; JSON mode never prints it. */
  lemma NoLabelsMessageIff(labels: seq<Label>, json: bool)
    ensures LabelsOutput(labels, json) == [Plain(NoLabelsFound)] <==> !json && labels == []
  {
    if !json && labels != [] {
      LabelsTextLayout(labels);
    }
  }

  /** The checks of `labels create`, `--name` before `--color`, and the request they let through. */
  function CreateLabelRequestFor(name: string, color: string): (r: Result<CreateLabelRequest, Error>)
    ensures r.Failure? <==> name == "" || color == ""
    ensures name == "" ==> r == Failure(FlagRequired("name"))
    ensures name != "" && color == "" ==> r == Failure(FlagRequired("color"))
    ensures r.Success? ==> EncodeCreateLabelRequest(r.value) == JObj(map["name" := JStr(name), "color" := JStr(color)])
  {
    if name == "" then Failure(FlagRequired("name"))
    else if color == "" then Failure(FlagRequired("color"))
    else Success(CreateLabelRequest(name, color))
  }

  /** `labels list`. */
  method RunListLabels(ctx: Context) returns (out: seq<Line>, err: Option<Error>)
    ensures ClientOf(ctx).Failure? ==> NoClient(ctx, out, err)
    ensures ClientOf(ctx).Success? ==>
      var r := GetLabels(ClientOf(ctx).value, ctx.transport, ctx.codec);
      Reported(out, err, r, if r.Success? then LabelsOutput(r.value, ctx.json) else [])
  {
    var client := ClientOf(ctx);
    if client.Failure? {
      return [], Some(client.error);
    }
    var r := GetLabels(client.value, ctx.transport, ctx.codec);
    if r.Failure? {
      return [], Some(r.error);
    }
    out := OutputLabels(r.value, ctx.json);
    err := None;
  }

  /** `labels create`: both flags are checked before any key is looked up. */
  method RunCreateLabel(ctx: Context, name: string, color: string) returns (out: seq<Line>, err: Option<Error>)
    ensures name == "" ==> out == [] && err == Some(FlagRequired("name"))
    ensures name != "" && color == "" ==> out == [] && err == Some(FlagRequired("color"))
    ensures name != "" && color != "" && ClientOf(ctx).Failure? ==> NoClient(ctx, out, err)
    ensures name != "" && color != "" && ClientOf(ctx).Success? ==>
      var r := CreateLabel(ClientOf(ctx).value, ctx.transport, ctx.codec, CreateLabelRequest(name, color));
      Reported(out, err, r, if r.Success? then LabelOutput(r.value, ctx.json) else [])
  {
    var req := CreateLabelRequestFor(name, color);
    if req.Failure? {
      return [], Some(req.error);
    }
    var client := ClientOf(ctx);
    if client.Failure? {
      return [], Some(client.error);
    }
    var r := CreateLabel(client.value, ctx.transport, ctx.codec, req.value);
    if r.Failure? {
      return [], Some(r.error);
    }
    out := LabelOutput(r.value, ctx.json);
    err := None;
  }
}
