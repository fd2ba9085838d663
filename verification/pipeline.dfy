/** The processing stage and the whole pipeline, run one stage after another:
    input stage, then for each batch parse, transform and serialise, then the
    output stage. */
module Pipeline {
  import opened Results
  import opened Json
  import opened Seqs
  import opened Transform
  import Framing
  import Writer

  /** serde_json's `from_str` and `to_string`, whose insides are not modelled:
      each either succeeds with a value or fails. */
  datatype Codec = Codec(parse: string -> Option<Value>, serialize: Value -> Option<string>)

  /** The rules are modelled on objects only: a line that parses at all parses
      to an object. */
  predicate ParsesToObject(codec: Codec, line: string) {
    codec.parse(line).Some? ==> codec.parse(line).value.Object?
  }

  predicate ParsesToObjects(codec: Codec, lines: seq<string>) {
    forall l :: l in lines ==> ParsesToObject(codec, l)
  }

  /** The fate of one line in the processing stage: `Ok(Some(text))` when it
      is emitted as `text`, `Ok(None)` when parsing or serialising drops it
      (with a diagnostic), `Err` when a rule panics. */
  function NormaliseLine(codec: Codec, line: string): (r: Result<Option<string>, Fault>)
    requires ParsesToObject(codec, line)
    ensures codec.parse(line).None? ==> r == Ok(None)
    ensures codec.parse(line).Some? ==>
              var rec := codec.parse(line).value.fields;
              && (r.Err? <==> MmapGuard(rec) && ShapeFault(rec))
              && (r.Ok? ==> (r.value.Some? <==> codec.serialize(Object(Transform.Transform(rec).value)).Some?))
              && (r.Ok? && r.value.Some? ==>
                    exists t :: && codec.serialize(Object(t)) == r.value
                                && Extends(rec, t)
                                && t.Keys == rec.Keys + {HostKey} + (if MmapGuard(rec) then {SharingFlagsKey} else {})
                                && (HostKey !in rec ==> t[HostKey] == String(UnknownHost))
                                && (MmapGuard(rec) ==> t[SharingFlagsKey] == SharingFlags(rec)))
  {
    match codec.parse(line)
    case None => Ok(None)
    case Some(v) =>
      var t :- Transform.Transform(v.fields);
      Ok(codec.serialize(Object(t)))
  }

  /** The per-line view of `NormaliseLine`: the output line a raw line
      becomes, if any; a line on which a rule panics emits nothing. */
  function Emitted(codec: Codec, line: string): Option<string>
  {
    if ParsesToObject(codec, line) && NormaliseLine(codec, line).Ok? then
      NormaliseLine(codec, line).value
    else
      None
  }

  function EmittedFn(codec: Codec): string -> Option<string> {
    line => Emitted(codec, line)
  }

  /** The `update(transform)` stage over the parsed records of a batch; a
      panic on any record aborts the whole batch. */
  function TransformAll(values: seq<Value>): (r: Result<seq<Value>, Fault>)
    requires forall v :: v in values ==> v.Object?
    ensures r.Ok? <==> forall v :: v in values ==> Transform.Transform(v.fields).Ok?
    ensures r.Ok? ==> |r.value| == |values|
    ensures r.Ok? ==> forall i :: 0 <= i < |values| ==>
                        r.value[i] == Object(Transform.Transform(values[i].fields).value)
  {
    if |values| == 0 then Ok([])
    else
      var first :- Transform.Transform(values[0].fields);
      var rest :- TransformAll(values[1..]);
      Ok([Object(first)] + rest)
  }

  /** One batch through the processing thread: `filter_map` of the decoder,
      `update` with the rules, `filter_map` of the encoder, collected in
      order.  Its output is, line by line, exactly what each raw line
      becomes on its own, so processing the lines independently (in
      parallel) and collecting them by position gives the same batch. */
  function ProcessBatch(codec: Codec, batch: seq<string>): (r: Result<seq<string>, Fault>)
    requires ParsesToObjects(codec, batch)
    ensures r.Ok? <==> forall l :: l in batch ==> NormaliseLine(codec, l).Ok?
    ensures r.Ok? ==> r.value == FilterMap(EmittedFn(codec), batch)
    ensures r.Ok? ==> |r.value| <= |batch|
  {
    var parsed := FilterMap(codec.parse, batch);
    StagesFuse(codec, batch);
    var transformed :- TransformAll(parsed);
    Ok(FilterMap(codec.serialize, transformed))
  }

  /** The three stages of `ProcessBatch` compose to per-line processing. */
  lemma {:induction false} StagesFuse(codec: Codec, batch: seq<string>)
    requires ParsesToObjects(codec, batch)
    ensures forall v :: v in FilterMap(codec.parse, batch) ==> v.Object?
    ensures var t := TransformAll(FilterMap(codec.parse, batch));
      && (t.Ok? <==> forall l :: l in batch ==> NormaliseLine(codec, l).Ok?)
      && (t.Ok? ==> FilterMap(codec.serialize, t.value) == FilterMap(EmittedFn(codec), batch))
    decreases |batch|
  {
    if |batch| > 0 {
      var l := batch[0];
      var rest := batch[1..];
      assert forall x :: x in rest ==> x in batch;
      StagesFuse(codec, rest);
      var parsedRest := FilterMap(codec.parse, rest);
      assert FilterMap(EmittedFn(codec), batch) == Emit(EmittedFn(codec), l) + FilterMap(EmittedFn(codec), rest);
      assert forall x :: x in batch ==> x == l || x in rest;
      match codec.parse(l)
      case None =>
        assert FilterMap(codec.parse, batch) == parsedRest;
        assert NormaliseLine(codec, l) == Ok(None);
      case Some(v) =>
        var parsed := [v] + parsedRest;
        assert FilterMap(codec.parse, batch) == parsed;
        assert parsed[0] == v && parsed[1..] == parsedRest;
        match Transform.Transform(v.fields)
        case Err(e) =>
          assert NormaliseLine(codec, l).Err?;
        case Ok(t) =>
          assert NormaliseLine(codec, l) == Ok(codec.serialize(Object(t)));
          var tr := TransformAll(parsed);
          if tr.Ok? {
            assert tr.value == [Object(t)] + TransformAll(parsedRest).value;
            assert tr.value[0] == Object(t);
            assert tr.value[1..] == TransformAll(parsedRest).value;
          }
    }
  }

  /** The processing thread over a stream of batches, in arrival order. */
  function ProcessAll(codec: Codec, batches: seq<seq<string>>): (r: Result<seq<seq<string>>, Fault>)
    requires ParsesToObjects(codec, Flatten(batches))
    ensures r.Ok? <==> forall l :: l in Flatten(batches) ==> NormaliseLine(codec, l).Ok?
    ensures r.Ok? ==> |r.value| == |batches|
    ensures r.Ok? ==> Flatten(r.value) == FilterMap(EmittedFn(codec), Flatten(batches))
    decreases |batches|
  {
    if |batches| == 0 then Ok([])
    else
      var all := Flatten(batches);
      assert all == batches[0] + Flatten(batches[1..]);
      FilterMapAppend(EmittedFn(codec), batches[0], Flatten(batches[1..]));
      var first :- ProcessBatch(codec, batches[0]);
      var rest :- ProcessAll(codec, batches[1..]);
      var out := [first] + rest;
      assert out[1..] == rest;
      Ok(out)
  }

  /** The whole run: frame the raw lines into batches, process each batch,
      write every output line.  A panic in a rule aborts the run. */
  function Run(codec: Codec, lines: seq<string>): (r: Result<string, Fault>)
    requires ParsesToObjects(codec, Framing.CleanLines(lines))
    ensures r.Ok? <==> forall l :: l in Framing.CleanLines(lines) ==> NormaliseLine(codec, l).Ok?
    ensures r.Ok? ==> r.value == Writer.WriteLines(FilterMap(EmittedFn(codec), Framing.CleanLines(lines)))
  {
    var batches := Framing.Frame(lines);
    var outs :- ProcessAll(codec, batches);
    Ok(Writer.WriteLines(Flatten(outs)))
  }

  /** Within a batch, the output keeps the relative order of the raw lines it
      comes from: the `j`-th output line is what the `Kept(...)[j]`-th raw line
      becomes, and every raw line that is emitted at all appears. */
  lemma BatchOrder(codec: Codec, batch: seq<string>)
    requires ParsesToObjects(codec, batch)
    requires ProcessBatch(codec, batch).Ok?
    ensures var out := ProcessBatch(codec, batch).value;
            var k := Kept(EmittedFn(codec), batch);
      && |k| == |out|
      && (forall j :: 0 <= j < |k| ==> k[j] < |batch| && NormaliseLine(codec, batch[k[j]]) == Ok(Some(out[j])))
      && (forall j, j' :: 0 <= j < j' < |k| ==> k[j] < k[j'])
      && (forall i :: 0 <= i < |batch| && NormaliseLine(codec, batch[i]).value.Some? ==> i in k)
  {
  }

  /** Reading the output back line by line gives, in order, the output lines
      of exactly the raw lines that survive, whatever the batching: batch
      boundaries are invisible, nothing is lost or duplicated at them.  This
      needs an encoder that never emits a raw newline, as compact JSON
      does not. */
  lemma RunOutputLines(codec: Codec, lines: seq<string>)
    requires ParsesToObjects(codec, Framing.CleanLines(lines))
    requires forall v :: codec.serialize(v).Some? ==> '\n' !in codec.serialize(v).value
    requires Run(codec, lines).Ok?
    ensures Writer.SplitLines(Run(codec, lines).value)
         == FilterMap(EmittedFn(codec), Framing.CleanLines(lines))
  {
    var emitted := FilterMap(EmittedFn(codec), Framing.CleanLines(lines));
    var k := Kept(EmittedFn(codec), Framing.CleanLines(lines));
    forall i | 0 <= i < |emitted|
      ensures '\n' !in emitted[i]
    {
      var l := Framing.CleanLines(lines)[k[i]];
      assert EmittedFn(codec)(l) == Emitted(codec, l);
      assert l in Framing.CleanLines(lines);
      var t :| codec.serialize(Object(t)) == Emitted(codec, l);
    }
    Writer.SplitWriteLines(emitted);
  }
}
