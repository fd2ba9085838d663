# trace-normalizer, modelled in Dafny

trace-normalizer reads audit/trace records as JSON Lines and writes them back
out as clean JSON Lines. The input may also be a JSON array printed one element
per line. Three threads form a pipeline:

- the **input thread** drops the array's framing lines, strips the `", "`
  element separator and cuts the lines into batches of 1024;
- the **processing thread** parses each line of a batch, applies the
  normalisation rules (`transform`) and serialises the record again;
- the **output thread** writes every line, each followed by a newline.

The normalisation rules are:

- `tf_host_uuid`: a record without `host` gets the placeholder host
  `44444444-4444-4444-4444-444444444444`;
- `tf_mmap_share`: an mmap event (`event` is `"audit:event:aue_mmap:"`) that
  has `arg_mem_flags` but no `arg_sharing_flags` gets a one-element
  `arg_sharing_flags`. The flag is `"MAP_SHARED"` for a `PROT_WRITE` mapping of a
  file under `/lib/`, `/usr/local/lib/` or `/usr/lib/`, and `"MAP_PRIVATE"`
  otherwise.

The model has seven modules:

- `Results`: Option and Result types. An `Err` is a Rust panic.
- `Json`: the JSON value and the object accessors `has`/`set`/`rec[key]`.
  `has(k)` means the key is present. `set(k, v)` inserts the key or overwrites it.
  `rec[key]` reads `null` for a missing key.
- `Seqs`: `starts_with`, `filter_map`, chunking into batches and flattening.
- `Transform`: the two rules and `transform`.
- `Framing`: the input thread.
- `Writer`: the output thread.
- `Pipeline`: the processing thread and the whole run, with the stages in sequence.

The decoder and encoder (`serde_json::from_str`, `to_string`) are the two
function fields of `Pipeline.Codec`. Each either returns a value or fails.
Three assumptions are made about them:

- The processing members (`NormaliseLine`, `ProcessBatch`, `StagesFuse`,
  `BatchOrder`, `ProcessAll`, `Run`, `RunOutputLines`) require that every line
  that parses parses to a JSON object (`Pipeline.ParsesToObject`,
  `Pipeline.ParsesToObjects`).
- `Pipeline.RunOutputLines` requires that the encoder never emits a raw
  newline, as compact JSON does not.
- `Json.Value` keeps numbers as integers and objects as unordered maps. So
  `serialize` stands for `to_string` only on records whose numbers are all
  integers, and only with serde_json's default sorted object map.

The model follows the code in four places where one might expect otherwise:

- The input thread drops a line only when it is exactly `""`, `"["` or `"]"`.
  A whitespace-only line is not dropped; it is passed on and then fails to
  parse.
- The artifact test looks at the raw line, before the separator is stripped.
  So `", "` becomes `""` and `", ]"` becomes `"]"`, and both reach a batch.
- The input thread always sends a final batch. That batch is empty when the
  cleaned line count is a multiple of 1024, including zero lines.
- A field of the wrong shape under the mmap guard makes the code panic, and
  the panic aborts the run. Examples are a non-array `arg_mem_flags`, or a
  `PROT_WRITE` mapping whose `fdpath` is missing or not a string. The model
  returns `Err`, and `Run` fails.

## Model

| member | source | states |
|---|---|---|
| `Seqs.StartsWith` | src/transform.rs:60-62 | the element-wise `starts_with` holds exactly when the prefix is a prefix of the string |
| `Seqs.FilterMap` | src/main.rs:106-120 | `filter_map` emits at most one output per input; its exact contents and order are stated by `Seqs.Kept` |
| `Seqs.Kept` | src/main.rs:104-121 | `filter_map` keeps order: output `j` is the image of input `Kept[j]`, the positions strictly increase, and every accepted input appears |
| `Seqs.Chunk` | src/main.rs:91-97 | batching gives at least one batch; the batches concatenate back to the input; every batch but the last holds exactly n lines; the last holds fewer (maybe none); input length = (batches - 1) * n + last length |
| `Seqs.ChunkUnique` | src/main.rs:91-97 | there is only one batching with these properties, so any loop that builds one builds `Chunk`'s |
| `Transform.HostUuid` | src/transform.rs:41-45 | every existing field keeps its value, including an existing `host` of any shape; the only key added is `host`, set to the placeholder UUID when it was absent |
| `Transform.WritableMapping` | src/transform.rs:59-67 | a writable mapping is `MAP_SHARED` exactly when its path starts with one of the three library directories, else `MAP_PRIVATE` |
| `Transform.MmapShare` | src/transform.rs:47-74 | guard false: record unchanged. Guard true: it fails exactly on a shape fault (non-array memory flags, or `PROT_WRITE` with a missing or non-string `fdpath`); otherwise it only sets `arg_sharing_flags` to `[MAP_SHARED]` for a writable library mapping and to `[MAP_PRIVATE]` otherwise |
| `Transform.Transform` | src/transform.rs:36-39 | fails exactly when the mmap guard holds on a shape fault; otherwise keeps every field's value, adds only `host` and `arg_sharing_flags`, always has `host` (the placeholder when it was absent), and has `arg_sharing_flags` iff it had it or the guard held, in which case it holds the inferred one-element flags |
| `Transform.GuardIgnoresHost` | src/transform.rs:36-39 | the mmap rule's guard, shape faults and sharing decision do not depend on the `host` field that the first rule writes |
| `Transform.PrivateWithoutWrite` | src/transform.rs:54-70 | without `PROT_WRITE` in the memory flags, the result is `[MAP_PRIVATE]` whatever `fdpath` holds, and also when it is absent: the path is never read |
| `Transform.TransformIdempotent` | src/transform.rs:36-74 | applying the rules to their own output returns it unchanged |
| `Transform.RulesCommute` | src/transform.rs:36-39 | the mmap rule followed by host defaulting gives the same result, or the same failure, as the source's order |
| `Transform.ExampleSharedLibrary` | src/transform.rs:54-64 | a `PROT_WRITE` mapping of `/usr/lib/libc.so` gets `["MAP_SHARED"]` |
| `Transform.ExamplePrivateFile` | src/transform.rs:59-67 | a `PROT_WRITE` mapping of `/home/user/a.out` gets `["MAP_PRIVATE"]` |
| `Framing.StripSeparator` | src/main.rs:87-89 | a line starting with `", "` loses exactly those two characters, once; any other line is unchanged |
| `Framing.ReadBatches` | src/main.rs:80-98 | the input thread's loop sends exactly the batches of `Chunk(CleanLines(lines), 1024)`: all full but a short (possibly empty) last one, concatenating to the cleaned lines |
| `Framing.CleanLinesSelects` | src/main.rs:84-91 | cleaned line `j` is the separator-stripped raw line `Kept[j]`, in increasing order. No `""`, `"["` or `"]"` raw line contributes, and every other raw line contributes exactly once. So `", "` survives as `""` |
| `Framing.ExampleSeparatorBeforeBracket` | src/main.rs:84-89 | the raw line `", ]"` is not an artifact, so it is kept and becomes `"]"` |
| `Framing.ExampleArrayFraming` | src/main.rs:84-89 | the lines `[`, `{"a":1}`, `, {"b":2}`, `]` clean to `{"a":1}`, `{"b":2}` |
| `Writer.WriteAll` | src/main.rs:127-131 | the output thread's nested loop writes the in-order concatenation over batches and lines of `line + "\n"`, independent of batch boundaries |
| `Writer.SplitWriteLines` | src/main.rs:129 | reading the output back line by line gives exactly the lines written, as long as no line contains a newline |
| `Pipeline.NormaliseLine` | src/main.rs:106-120 | one line's fate: a line that does not parse is dropped; a parsed record panics exactly when the mmap guard holds on a shape fault; otherwise the line is emitted iff its transformed record serialises, and the emitted text is the serialisation of the transformed record: every original field kept, keys exactly the original ones plus `host` plus `arg_sharing_flags` when the mmap guard holds, `host` the placeholder when it was absent, and `arg_sharing_flags` the inferred one-element flags |
| `Pipeline.TransformAll` | src/main.rs:113 | the rule stage succeeds iff no record panics, and then gives the transformed object of every record, position by position |
| `Pipeline.ProcessBatch` | src/main.rs:104-121 | parse, then transform, then serialise aborts iff some line panics. Otherwise the output is the lines emitted by each raw line processed on its own, in order, and never longer than the batch |
| `Pipeline.StagesFuse` | src/main.rs:104-121 | the three `filter_map`/`update`/`filter_map` stages are, together, the same as processing each line independently and keeping the results by position |
| `Pipeline.BatchOrder` | src/main.rs:104-121 | output line `j` is what raw line `Kept[j]` becomes. The positions increase. Every line that parses and serialises has its output in the batch |
| `Pipeline.ProcessAll` | src/main.rs:103-123 | for any batching, the processing thread aborts iff some line panics; otherwise it outputs one batch per input batch, and they concatenate to the per-line outputs of all input lines in order |
| `Pipeline.Run` | src/main.rs:75-136 | the run aborts iff a rule panics on some cleaned line. Otherwise its text is, in input order, the `line + "\n"` of every cleaned line that parses and serialises |
| `Pipeline.RunOutputLines` | src/main.rs:80-131 | with an encoder that never emits a newline, the output's lines are exactly the processed cleaned input lines in order. None is lost or duplicated at a batch boundary, whatever the number of lines |

## Left out

- Threads, the rendezvous `sync_channel(0)` channels and `join` are not modelled: the three stages run in sequence. Channels pass batches in order and unchanged, so this does not change which lines come out or their order.
- Rayon's `into_par_iter` is a sequential `filter_map`/`update`/`filter_map`. `collect` into a `Vec` keeps the order of any parallel iterator, including the unindexed one `filter_map` returns, and `Pipeline.StagesFuse` shows the result is the per-line results collected by position.
- Argument parsing, opening files or standard streams and the usage exit code are left out: they are I/O wrappers.
- Reading input lines is left out: `BufRead::lines` decoding, line-terminator stripping and read errors. The model starts from the sequence of lines.
- `BufWriter` buffering, write errors and the `eprintln!` diagnostics of dropped lines are I/O and are left out.
- JSON grammar and serialisation are left out: they are library code. They are the uninterpreted `Codec` functions.
- Numbers are integers in `Json.Value`: no rule reads a number, and floating point is not modelled.
- Output key order is modelled as serde_json's default sorted map. With its `preserve_order` feature the key order depends on insertion history, which `Json.Record` does not keep.
- The helper module behind `has`/`set` (src/value_ext.rs) is not part of this model. It is assumed to mean key presence and insert-or-overwrite on objects. Its behaviour on non-objects is unknown. The pipeline members therefore require every line that parses to parse to an object (`Pipeline.ParsesToObjects`).
- Pipeline.Run: when a rule panics, the model returns only `Err`. The lines that earlier batches may already have written before the process aborts are not modelled, because that depends on thread timing.
- Pipeline.ProcessBatch: when several records of one batch panic, the model reports the first one. Rayon may report another. The run aborts either way.
