/** The output stage: every line of every batch, in order, each followed by a
    newline. */
module Writer {
  import opened Seqs

  /** `writeln!` of each line in turn. */
  function WriteLines(lines: seq<string>): string {
    if |lines| == 0 then [] else lines[0] + "\n" + WriteLines(lines[1..])
  }

  lemma {:induction false} WriteLinesAppend(a: seq<string>, b: seq<string>)
    ensures WriteLines(a + b) == WriteLines(a) + WriteLines(b)
    decreases |a|
  {
    if |a| == 0 {
      assert a + b == b;
    } else {
      assert (a + b)[0] == a[0];
      assert (a + b)[1..] == a[1..] + b;
      WriteLinesAppend(a[1..], b);
    }
  }

  /** The output thread: for each batch, for each line, write it and a
      newline.  Batch boundaries leave no trace in the text. */
  method WriteAll(batches: seq<seq<string>>) returns (text: string)
    ensures text == WriteLines(Flatten(batches))
  {
    text := [];
    for i := 0 to |batches|
      invariant text == WriteLines(Flatten(batches[..i]))
    {
      var v := batches[i];
      ghost var before := text;
      for j := 0 to |v|
        invariant text == before + WriteLines(v[..j])
      {
        assert v[..j + 1] == v[..j] + [v[j]];
        WriteLinesAppend(v[..j], [v[j]]);
        assert WriteLines([v[j]]) == v[j] + "\n" + WriteLines([]);
        text := text + v[j] + "\n";
      }
      assert v[..|v|] == v;
      assert batches[..i + 1] == batches[..i] + [v];
      FlattenSnoc(batches[..i], v);
      WriteLinesAppend(Flatten(batches[..i]), v);
      assert text == WriteLines(Flatten(batches[..i])) + WriteLines(v);
    }
    assert batches[..|batches|] == batches;
  }

  /** Length of the first line of `text`: the position of its first newline,
      or the whole text when there is none. */
  function LineEnd(text: string): (n: nat)
    ensures n <= |text|
    ensures forall i :: 0 <= i < n ==> text[i] != '\n'
    ensures n < |text| ==> text[n] == '\n'
  {
    if |text| == 0 || text[0] == '\n' then 0 else 1 + LineEnd(text[1..])
  }

  /** Read newline-terminated lines back out of a text. */
  function SplitLines(text: string): seq<string>
    decreases |text|
  {
    if |text| == 0 then []
    else
      var n := LineEnd(text);
      if n == |text| then [text] else [text[..n]] + SplitLines(text[n + 1..])
  }

  /** Reading the output back line by line gives exactly the lines written,
      provided none of them holds a newline of its own. */
  lemma {:induction false} SplitWriteLines(lines: seq<string>)
    requires forall i :: 0 <= i < |lines| ==> '\n' !in lines[i]
    ensures SplitLines(WriteLines(lines)) == lines
    decreases |lines|
  {
    if |lines| > 0 {
      var rest := WriteLines(lines[1..]);
      var text := WriteLines(lines);
      assert text == lines[0] + "\n" + rest;
      var n := LineEnd(text);
      assert text[|lines[0]|] == '\n';
      assert n == |lines[0]|;
      assert text[..n] == lines[0];
      assert text[n + 1..] == rest;
      SplitWriteLines(lines[1..]);
    }
  }
}
