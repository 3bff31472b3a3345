# Pairwise link fusion: job queue, aligner and fuse

This project models the alignment-and-resolution engine of the record-linkage
fusion module (`recordlinkage/fuse.py`) in Dafny, and proves properties of it.
After an entity-resolution step has matched records of two tables A and B,
the engine works in three steps:

- A caller queues one **resolution job** per output attribute. A job names:
  - a conflict-resolution strategy;
  - the value columns of each side;
  - optional metadata, given as columns or as static constants;
  - optional transforms;
  - extra strategy parameters.
- For each job, `FuseLinks._make_resolution_series` builds one **aligned
  record** per matched pair:
  - the tuple of candidate values, A columns first, then B columns;
  - when metadata is configured, the parallel tuple of metadata.
  When one side has fewer value columns than metadata columns, its first value
  column is broadcast ("generalized"), and the same rule runs the other way
  round.
- `fuse` applies each job's strategy to every aligned record, passing the job's
  parameters. It returns the result columns in queue order.

The modules:

- `values.dfy` (`Values`):
  - the dynamically typed `Value` and `listify`;
  - the raised exceptions, as an `Error` datatype;
  - `Result`, which stands for "returns or raises";
  - `Collect`, the "append in a loop until something raises" pattern.
- `frames.dfy` (`Frames`):
  - a data frame as a row order plus a column → id → cell map;
  - the two reads the engine makes: `df[c]` (`WholeColumn`) and
    `df[c].loc[ids]` (`ColumnAt`);
  - the two append loops built on them, as methods proved against the
    functions `Gather` and `Broadcast`.
- `alignment.dfy` (`Alignment`):
  - the validated job (`Config`), the per-side generalization decision
    (`SideMode`, `ModeOf`), the column reads per side (`ValueSlots`,
    `MetaSlots`, `CollectSlots`), and the transform/zip/tupling (`Emit`);
  - the specification `ResolutionSeries` of `_make_resolution_series`;
  - the lemmas about the aligned series.
- `fusion.dfy` (`Fusion`):
  - the queued `Job`, `resolve`, and the specification `FuseResult` of `fuse`;
  - the class `FuseLinks`, holding the queue, the two tables and the pair
    index. Its methods `QueueResolve`, the four wrappers, `FusionInit`,
    `MakeResolutionSeries` and `Fuse` are imperative, and each is proved
    against the specification functions.

Some behaviours of `fuse.py` are easy to misread; the model follows the code:

- The generalized branches read the whole table column, in table row order
  (`self.df_a[values_a[0]]`, with no `.loc`; `recordlinkage/fuse.py:239`,
  `:252`, `:284`, `:301-302`). They do not read at the pair ids.
  `GeneralizedValuesBroadcast` and `GeneralizedMetadataBroadcast` state this:
  record i holds the cell of the table's i-th row.
- A job with no value columns is not rejected:
  - with generalization, `values_a[0]` raises an index error (`IndexOutOfRange`);
  - otherwise, `zip()` of nothing gives an empty series
    (`recordlinkage/fuse.py:269`).
- Static metadata is the constant exactly as given: it is not listified.
  `transform_meta` is applied to it like to any metadata series
  (`recordlinkage/fuse.py:276-279`).
- `pd.concat` of zero columns raises. `fuse` with an empty queue is therefore
  an error (`NoObjectsToConcatenate`), not an empty table
  (`recordlinkage/fuse.py:135`).
- `params=None` reaches `Series.apply` as "no extra arguments" (`Args`;
  `recordlinkage/fuse.py:47`).

## Model

| member | source | states |
|---|---|---|
| Values.Collect | recordlinkage/fuse.py:242-245 | an append loop over fallible reads succeeds iff every read succeeds; it then holds every read's result, in order; otherwise it fails with the error of one of the reads |
| Values.CollectStopsAtFirstFailure | recordlinkage/fuse.py:122-133 | the loop stops at the first raising step: if all steps before i succeed and step i fails, the whole collection fails with step i's error |
| Values.CollectExtend | recordlinkage/fuse.py:123-133 | one more successful step appends exactly its value to the collected list |
| Frames.WholeColumn | recordlinkage/fuse.py:239 | `df[c]` succeeds iff the column exists (else a lookup error); it has one entry per table row, in row order, each the cell at that row |
| Frames.ColumnAt | recordlinkage/fuse.py:244 | `df[c].loc[ids]` succeeds iff the column exists and every id is a row; it then has one entry per id, in id order, each the cell at that id |
| Frames.Gather | recordlinkage/fuse.py:242-245 | reading the declared columns at the ids succeeds iff each single read does; the j-th result is the j-th declared column read at the ids; failures are lookup errors |
| Frames.Broadcast | recordlinkage/fuse.py:236-240 | k copies of the whole first column: nothing is read when k = 0; otherwise it succeeds iff there is a first name and that column exists, and every copy is that column |
| Frames.CollectColumns | recordlinkage/fuse.py:242-245 | the `for name in values: data.append(...)` loop returns exactly `Gather`, stopping at the first failing read |
| Frames.BroadcastColumn | recordlinkage/fuse.py:236-240 | the `for _ in range(len(meta)): data.append(df[values[0]])` loop returns exactly `Broadcast` |
| Alignment.SideMode | recordlinkage/fuse.py:201-227 | the generalization decision of one side: both the value slot count and the metadata slot count become the larger of the two column counts; neither is generalized iff the counts are equal |
| Alignment.ModeOf | recordlinkage/fuse.py:199-232 | a side is generalized only when metadata columns are in use (not static or absent): values iff it has fewer value than metadata columns, metadata iff more; decided from that side's counts alone |
| Alignment.ValueSlots | recordlinkage/fuse.py:234-258 | one side's value columns number that side's slot count; failures are lookup errors |
| Alignment.MetaSlots | recordlinkage/fuse.py:274-308 | one side's metadata columns (static, generalized or direct) number that side's slot count, which equals its value slot count |
| Alignment.CollectSlots | recordlinkage/fuse.py:234-308 | all reads in engine order (A values, B values, A metadata, B metadata): each side gets its slot count of value columns; with metadata, as many metadata columns as value columns; without, none |
| Alignment.MinLen | recordlinkage/fuse.py:269 | the length `zip` stops at is at most every column's length and equal to some column's length |
| Alignment.Zip | recordlinkage/fuse.py:269 | `zip(*cols)`: no columns give no tuple; tuple i has one entry per column, the column's i-th entry, and there are as many tuples as the shortest column |
| Alignment.Transformed | recordlinkage/fuse.py:265-266 | the transform is applied to every entry of every column; the shapes are kept |
| Alignment.Rows | recordlinkage/fuse.py:264-269 | transform then zip: no longer than any column, as long as one of them; entry (i, j) is the transformed i-th cell of column j |
| Alignment.Emit | recordlinkage/fuse.py:260-326 | every emitted record is a (values, metadata) pair iff metadata is configured, else a 1-tuple; every value tuple has one entry per collected value column |
| Alignment.EmitLength | recordlinkage/fuse.py:319-326 | the series is no longer than any value or metadata column, as long as one of them, and empty without value columns |
| Alignment.EmitRecords | recordlinkage/fuse.py:260-326 | record i is a (values, metadata) pair iff metadata is configured, else a 1-tuple; its j-th value is the transformed i-th cell of the j-th value column, A columns before B columns, and likewise for metadata |
| Alignment.Align | recordlinkage/fuse.py:234-328 | the aligned series of a validated job succeeds iff every column read succeeds; its failures are lookup errors |
| Alignment.Configure | recordlinkage/fuse.py:169-196 | validation succeeds iff both tables are present, both transforms are callable and metadata is given for both sides or neither; its failures are configuration errors; it keeps the tables and transforms, listifies the value lists, and picks no metadata, static constants or listified metadata columns |
| Alignment.ResolutionSeries | recordlinkage/fuse.py:166-328 | `_make_resolution_series`: every failure is a configuration or lookup error, and it succeeds only when validation succeeds |
| Alignment.ConfigurationErrors | recordlinkage/fuse.py:169-187 | the series fails with a configuration error iff a table is missing, a transform is not callable, or metadata is given for one side only; every other failure is a lookup error; the checks run in source order, so a missing A table raises `DfANone`, then a missing B table `DfBNone`, then the value transform, then the metadata transform, then one-sided metadata `OneSidedMetadata` |
| Alignment.TupleWidthsAgree | recordlinkage/fuse.py:310-326 | every value tuple has the A slot count plus the B slot count entries; with metadata, every record is a pair whose metadata tuple is as long as its value tuple; without, a 1-tuple |
| Alignment.StaticMetadataIsLiteral | recordlinkage/fuse.py:276-297 | with static metadata, every record's metadata tuple is the (transformed) A constant once per A value column, then the B constant once per B value column, whatever the tables hold |
| Alignment.ValuesReadAtPairIds | recordlinkage/fuse.py:241-258 | on a side whose values are not generalized, entry (offset + j) of record i is the transformed cell of the j-th declared column at the i-th pair's id of that side; the column and id exist |
| Alignment.MetaReadAtPairIds | recordlinkage/fuse.py:286-326 | with metadata columns, on a side whose metadata is not generalized, metadata entry (offset + j) of record i is the transformed cell of the j-th declared metadata column at the i-th pair's id of that side; the column and id exist |
| Alignment.GeneralizedValuesBroadcast | recordlinkage/fuse.py:236-253 | on a side whose values are generalized, every one of its slots in record i holds the transformed cell of the first value column at the table's i-th row |
| Alignment.GeneralizedMetadataBroadcast | recordlinkage/fuse.py:281-303 | on a side whose metadata is generalized, every one of its metadata slots in record i holds the transformed cell of the first metadata column at the table's i-th row |
| Alignment.PairColumnLengths | recordlinkage/fuse.py:241-308 | every column of a side read at the pair ids, or built as a constant series, is as long as the pair index |
| Alignment.OneRecordPerPair | recordlinkage/fuse.py:319-326 | when neither side is generalized there is exactly one record per pair, or none when the job names no value column |
| Alignment.ZeroPairsEmpty | recordlinkage/fuse.py:319-326 | zero pairs give an empty series, whatever the generalization |
| Fusion.Resolve | recordlinkage/fuse.py:38-47 | `resolve`: one result per aligned record, in order, each the strategy applied to that record and the job's extra arguments |
| Fusion.JobColumn | recordlinkage/fuse.py:123-132 | one job's resolved column succeeds iff its aligned series does, fails with that series' error, and has one entry per aligned record |
| Fusion.FuseResult | recordlinkage/fuse.py:104-135 | `fuse` over an empty queue raises `NoObjectsToConcatenate`; a success has one column per job; a failure over a non-empty queue carries the error of one of the jobs |
| Fusion.OneColumnPerJob | recordlinkage/fuse.py:120-135 | `fuse` succeeds iff the queue is non-empty and every job aligns; then there is one column per job, in queue order, and column j is job j's strategy applied to each of its aligned records with its parameters |
| Fusion.TrustedJobTagsSources | recordlinkage/fuse.py:78-79 | the job `trust_your_friends` queues tags each record's metadata "a" once per A column and "b" once per B column, and passes the trusted source as the one extra argument |
| Fusion.FuseLinks.constructor | recordlinkage/fuse.py:28-36 | a new engine has an empty queue and no tables |
| Fusion.FuseLinks.QueueResolve | recordlinkage/fuse.py:49-68 | appends exactly one job, holding the arguments as given, at the end of the queue; earlier jobs are unchanged and nothing is validated |
| Fusion.FuseLinks.TrustYourFriends | recordlinkage/fuse.py:78-79 | queues `choose` with static metadata "a"/"b" and the trusted source as the only parameter |
| Fusion.FuseLinks.NoGossiping | recordlinkage/fuse.py:81-82 | queues `no_gossip` with the default options |
| Fusion.FuseLinks.RollTheDice | recordlinkage/fuse.py:84-85 | queues `choose_random` with the default options |
| Fusion.FuseLinks.CryWithTheWolves | recordlinkage/fuse.py:87-88 | queues `vote` with the default options |
| Fusion.FuseLinks.FusionInit | recordlinkage/fuse.py:95-102 | stores the two tables, and the comparison vectors' index as the pair index |
| Fusion.FuseLinks.MakeResolutionSeries | recordlinkage/fuse.py:166-328 | returns exactly `ResolutionSeries` over the stored tables and pair index: validation first, then the per-side reads, then the transform and zip |
| Fusion.FuseLinks.ResolveJob | recordlinkage/fuse.py:123-132 | one iteration of the `fuse` loop: the job's aligned series, then `resolve` with its strategy and parameters; exactly `JobColumn` |
| Fusion.FuseLinks.Fuse | recordlinkage/fuse.py:104-135 | returns exactly `FuseResult`: the jobs run in queue order and the first failing job's error is raised; an empty queue is a concatenation error; the queue is not modified |
| Fusion.CheckJob | recordlinkage/fuse.py:169-196 | the checks before any read, in source order, then the listified columns and the metadata mode: exactly `Configure` |
| Fusion.AlignColumns | recordlinkage/fuse.py:234-328 | the reads of a validated job, in engine order, then the emission: exactly `Align` |
| Fusion.ReadValueSlots | recordlinkage/fuse.py:234-258 | one side's value loop (broadcast or per-column read): exactly `ValueSlots` |
| Fusion.ReadMetaSlots | recordlinkage/fuse.py:271-308 | one side's metadata loop (constant, broadcast or per-column read): exactly `MetaSlots` |
| Fusion.ConstantSeries | recordlinkage/fuse.py:276-279 | the static-metadata loop builds k constant series of the pair count's length |

## Left out

- pandas mechanics:
  - series are sequences and the output index is positional;
  - the NaN padding that `pd.concat(axis=1)` applies to columns of unequal
    length is not modelled, so the fused result is the list of columns;
  - duplicate row labels are not modelled, since a table is a map from id to
    cell.
- The conflict-resolution strategies (`choose`, `no_gossip`, `choose_random`,
  `vote`) are opaque: a function parameter of `Fuse` that takes the strategy
  name, the aligned record and the extra arguments.
  - The randomness of `choose_random` is folded into that function.
  - Errors raised by a strategy are not modelled.
- `listify` is assumed to keep a list and to wrap any other value in a
  one-element list.
- `callable()` is modelled as a tag on the transform, not as reflection.
- `Transform.Callable` is a total function: a transform that raises inside
  `s.apply` (`recordlinkage/fuse.py:266`, `:316`) is not modelled.
- `static_meta` is a `bool` in the model. The source tests it by identity
  (`is False`, `is True` at `recordlinkage/fuse.py:191`, `:199`, `:276`,
  `:294`), so a truthy value that is not `True` takes a third path there; that
  path is not modelled.
- `Fusion.FuseLinks.FusionInit` and `Fusion.FuseLinks.Fuse` take the pair ids
  directly. The source reads them as columns 0 and 1 of
  `vectors.index.to_frame()` (`recordlinkage/fuse.py:97`, `:244`, `:257`),
  which raises `KeyError` when the index levels are named; that failure is not
  modelled.
- The `logging.warn` diagnostics of the generalization decision are not
  modelled.
- The stored but unused inputs are not modelled:
  - `predictions`, `suffix_a` and `suffix_b`, and `vectors` apart from its
    index;
  - `unique_a` and `unique_b`;
  - the `kwargs` of a job, which are stored but never read.
- A `.loc` read at a missing id raises a `KeyError` that names the missing
  labels. The model reports `MissingRecords`, without the labels.
- `FuseClusters` is not part of this model; it has no implementation.
- The setup hooks `_fusion_setup` and `_apply_refinement` do nothing, so they
  are not modelled.
- `FuseCore._make_resolution_series` is the base-class placeholder that
  returns an empty series. Only the `FuseLinks` version is modelled, and
  `FuseCore` and `FuseLinks` form a single class.
- `Fusion.FuseLinks.constructor`: the pair index starts as an empty sequence
  rather than `None`. `fuse` sets it before any read, so nothing reads the
  initial value.
