/**
 * What a command writes to standard output, one element per print call: a line of text, a line
 * given as raw bytes (where the Go code slices a string by bytes), or one JSON document in JSON mode.
 */
module Output {
  import opened Text
  import opened Json

  datatype Line = Plain(text: string) | Binary(bytes: Bytes) | Document(value: Json)

  /** Some text line of `lines` starts with `prefix`. */
  predicate Shows(lines: seq<Line>, prefix: string) {
    exists i :: 0 <= i < |lines| && lines[i].Plain? && |prefix| <= |lines[i].text|
                && lines[i].text[..|prefix|] == prefix
  }

  lemma ShowsAppend(a: seq<Line>, b: seq<Line>, prefix: string)
    ensures Shows(a + b, prefix) <==> Shows(a, prefix) || Shows(b, prefix)
  {
    if Shows(a + b, prefix) {
      var i :| 0 <= i < |a + b| && (a + b)[i].Plain? && |prefix| <= |(a + b)[i].text|
               && (a + b)[i].text[..|prefix|] == prefix;
      if i >= |a| {
        assert b[i - |a|] == (a + b)[i];
      }
    }
    if Shows(a, prefix) {
      var i :| 0 <= i < |a| && a[i].Plain? && |prefix| <= |a[i].text| && a[i].text[..|prefix|] == prefix;
      assert (a + b)[i] == a[i];
    }
    if Shows(b, prefix) {
      var i :| 0 <= i < |b| && b[i].Plain? && |prefix| <= |b[i].text| && b[i].text[..|prefix|] == prefix;
      var k := |a| + i;
      assert (a + b)[k] == b[i];
      assert 0 <= k < |a + b| && (a + b)[k].Plain? && |prefix| <= |(a + b)[k].text|
             && (a + b)[k].text[..|prefix|] == prefix;
    }
  }

  lemma ShowsConcat8(a: seq<Line>, b: seq<Line>, c: seq<Line>, d: seq<Line>, e: seq<Line>, f: seq<Line>,
                     g: seq<Line>, h: seq<Line>, prefix: string)
    ensures Shows(a + b + c + d + e + f + g + h, prefix) <==>
            Shows(a, prefix) || Shows(b, prefix) || Shows(c, prefix) || Shows(d, prefix)
            || Shows(e, prefix) || Shows(f, prefix) || Shows(g, prefix) || Shows(h, prefix)
  {
    ShowsAppend(a + b + c + d + e + f + g, h, prefix);
    ShowsAppend(a + b + c + d + e + f, g, prefix);
    ShowsAppend(a + b + c + d + e, f, prefix);
    ShowsAppend(a + b + c + d, e, prefix);
    ShowsAppend(a + b + c, d, prefix);
    ShowsAppend(a + b, c, prefix);
    ShowsAppend(a, b, prefix);
  }

  /** The number of blank lines. */
  function Blanks(lines: seq<Line>): nat {
    if lines == [] then 0
    else Blanks(lines[..|lines| - 1]) + (if lines[|lines| - 1] == Plain("") then 1 else 0)
  }

  lemma {:induction false} BlanksAppend(a: seq<Line>, b: seq<Line>)
    ensures Blanks(a + b) == Blanks(a) + Blanks(b)
    decreases |b|
  {
    if b == [] {
      assert a + b == a;
    } else {
      assert (a + b)[..|a + b| - 1] == a + b[..|b| - 1];
      BlanksAppend(a, b[..|b| - 1]);
    }
  }

  lemma {:induction false} NoBlanks(lines: seq<Line>)
    requires forall i :: 0 <= i < |lines| ==> lines[i] != Plain("")
    ensures Blanks(lines) == 0
    decreases |lines|
  {
    if lines != [] {
      NoBlanks(lines[..|lines| - 1]);
    }
  }

  /** Every line of `lines` is a text line starting with `tag`. */
  predicate Tagged(lines: seq<Line>, tag: string) {
    forall i :: 0 <= i < |lines| ==> lines[i].Plain? && |tag| <= |lines[i].text| && lines[i].text[..|tag|] == tag
  }

  lemma TaggedShows(lines: seq<Line>, tag: string)
    requires Tagged(lines, tag) && lines != []
    ensures Shows(lines, tag)
  {
    assert lines[0].Plain? && |tag| <= |lines[0].text| && lines[0].text[..|tag|] == tag;
  }

  /** Lines whose tag differs from `prefix` at position `k` never show `prefix`. */
  lemma TaggedHides(lines: seq<Line>, tag: string, prefix: string, k: nat)
    requires Tagged(lines, tag) && k < |tag| && k < |prefix| && tag[k] != prefix[k]
    ensures !Shows(lines, prefix)
  {
    forall i | 0 <= i < |lines| && lines[i].Plain? && |prefix| <= |lines[i].text|
      ensures lines[i].text[..|prefix|] != prefix
    {
      assert lines[i].text[..|tag|][k] == lines[i].text[k];
      assert lines[i].text[..|prefix|][k] == lines[i].text[k];
    }
  }

  lemma TaggedNoBlanks(lines: seq<Line>, tag: string)
    requires Tagged(lines, tag) && tag != ""
    ensures Blanks(lines) == 0
  {
    forall i | 0 <= i < |lines|
      ensures lines[i] != Plain("")
    {
      assert |lines[i].text| >= 1;
    }
    NoBlanks(lines);
  }
}
