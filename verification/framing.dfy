/** The input stage: drop the framing lines of an array-wrapped stream, strip
    the element separator, and cut the surviving lines into batches. */
module Framing {
  import opened Results
  import opened Seqs

  /** Lines per batch. */
  const BatchSize: nat := 1024
  /** The separator that starts the second and later elements of a JSON array
      printed one element per line. */
  const Separator := ", "

  /** Lines that carry no record: tested by exact equality, not trimmed. */
  predicate IsArtifact(line: string) {
    line == "" || line == "[" || line == "]"
  }

  /** Remove one leading separator, if there is one. */
  function StripSeparator(line: string): (r: string)
    ensures Separator <= line ==> line == Separator + r
    ensures !(Separator <= line) ==> r == line
  {
    if StartsWith(line, Separator) then line[|Separator|..] else line
  }

  /** What one raw line contributes to the stream of candidate records:
      nothing for an artifact, else the line without its separator.  The
      artifact test comes first, so the line `", "` survives as `""`. */
  function CleanLine(line: string): Option<string> {
    if IsArtifact(line) then None else Some(StripSeparator(line))
  }

  /** The candidate records of a stream of raw lines, in order. */
  function CleanLines(lines: seq<string>): seq<string> {
    FilterMap(CleanLine, lines)
  }

  /** The batches the input stage sends. */
  function Frame(lines: seq<string>): seq<seq<string>> {
    Chunk(CleanLines(lines), BatchSize)
  }

  /** The input thread's loop, one raw line at a time: it sends exactly the
      batches of `Frame`, so every batch but the last is full, the last is
      short and possibly empty, and together they are the cleaned lines. */
  method ReadBatches(lines: seq<string>) returns (batches: seq<seq<string>>)
    ensures batches == Frame(lines)
    ensures IsBatching(batches, CleanLines(lines), BatchSize)
  {
    batches := [];
    var v: seq<string> := [];
    for i := 0 to |lines|
      invariant Flatten(batches) + v == CleanLines(lines[..i])
      invariant forall j :: 0 <= j < |batches| ==> |batches[j]| == BatchSize
      invariant |v| < BatchSize
    {
      var line := lines[i];
      CleanLinesStep(lines, i);
      if !(line == "" || line == "[" || line == "]") {
        if StartsWith(line, Separator) {
          line := line[|Separator|..];
        }
        assert line == StripSeparator(lines[i]);
        v := v + [line];
        if |v| >= BatchSize {
          FlattenSnoc(batches, v);
          batches := batches + [v];
          v := [];
        }
      }
    }
    assert lines[..|lines|] == lines;
    LastBatch(batches, v, CleanLines(lines));
    batches := batches + [v];
  }

  /** Sending the short batch in hand completes the batching. */
  lemma LastBatch(batches: seq<seq<string>>, v: seq<string>, cleaned: seq<string>)
    requires Flatten(batches) + v == cleaned
    requires forall j :: 0 <= j < |batches| ==> |batches[j]| == BatchSize
    requires |v| < BatchSize
    ensures IsBatching(batches + [v], cleaned, BatchSize)
    ensures batches + [v] == Chunk(cleaned, BatchSize)
  {
    FlattenSnoc(batches, v);
    ChunkUnique(batches + [v], cleaned, BatchSize);
  }

  lemma CleanLinesStep(lines: seq<string>, i: nat)
    requires i < |lines|
    ensures CleanLines(lines[..i + 1])
         == CleanLines(lines[..i]) + (if IsArtifact(lines[i]) then [] else [StripSeparator(lines[i])])
  {
    assert lines[..i + 1] == lines[..i] + [lines[i]];
    FilterMapAppend(CleanLine, lines[..i], [lines[i]]);
    assert FilterMap(CleanLine, [lines[i]]) == Emit(CleanLine, lines[i]) + FilterMap(CleanLine, []);
  }

  /** The cleaned stream, position by position: the `j`-th candidate is the
      `Kept(...)[j]`-th raw line minus its separator, no artifact line ever
      contributes, and every other line does, once, in input order. */
  lemma CleanLinesSelects(lines: seq<string>)
    ensures var k := Kept(CleanLine, lines);
      && |k| == |CleanLines(lines)|
      && (forall j :: 0 <= j < |k| ==> k[j] < |lines| && !IsArtifact(lines[k[j]]))
      && (forall j :: 0 <= j < |k| ==> CleanLines(lines)[j] == StripSeparator(lines[k[j]]))
      && (forall j, j' :: 0 <= j < j' < |k| ==> k[j] < k[j'])
      && (forall i :: 0 <= i < |lines| && !IsArtifact(lines[i]) ==> i in k)
  {
  }

  /** The framing of an array printed one element per line. */
  lemma ExampleArrayFraming()
    ensures CleanLines(["[", "{\"a\":1}", ", {\"b\":2}", "]"]) == ["{\"a\":1}", "{\"b\":2}"]
  {
  }

  /** The artifact test looks at the raw line, before the separator is
      stripped: `", ]"` is kept, and becomes `"]"`. */
  lemma ExampleSeparatorBeforeBracket()
    ensures CleanLines([", ]"]) == ["]"]
  {
  }
}
