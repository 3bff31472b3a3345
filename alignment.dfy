/** The aligner of pairwise link fusion: for one resolution job it turns the two
    tables and the pair index into one aligned record per pair, the tuple of
    candidate values and, when metadata is configured, the parallel tuple of
    metadata. */
module Alignment {
  import opened Values
  import opened Frames

  /** An optional elementwise transform; `NotCallable` is a value given where a
      function was expected. */
  datatype Transform = NoTransform | Callable(f: Value -> Value) | NotCallable

  function Apply(tr: Transform, v: Value): Value
  {
    if tr.Callable? then tr.f(v) else v
  }

  datatype Side = A | B

  /** The metadata configuration of a job once it has been validated: none, one
      constant per side (static metadata), or metadata column labels per side. */
  datatype Metadata =
    | NoMetadata
    | Static(literalA: Value, literalB: Value)
    | Columns(namesA: seq<Value>, namesB: seq<Value>)

  /** A validated job together with the two tables it reads. */
  datatype Config = Config(
    frameA: Frame, frameB: Frame,
    valuesA: seq<Value>, valuesB: seq<Value>,
    meta: Metadata,
    transformVals: Transform, transformMeta: Transform)

  /** The columns collected for a job, per side, before transform and zip. */
  datatype Slots = Slots(
    valuesA: seq<seq<Value>>, valuesB: seq<seq<Value>>,
    metaA: seq<seq<Value>>, metaB: seq<seq<Value>>)

  /** What a strategy receives for one pair: the candidate values, and the
      metadata when the job has any. */
  datatype Aligned = Single(values: seq<Value>) | Pair(values: seq<Value>, meta: seq<Value>)

  /** How one side reconciles its value and metadata column counts. */
  datatype Mode = Direct | GeneralizeValues | GeneralizeMeta

  function ValueSlotCount(m: Mode, nValues: nat, nMeta: nat): nat
  {
    if m == GeneralizeValues then nMeta else nValues
  }

  function MetaSlotCount(m: Mode, nValues: nat, nMeta: nat): nat
  {
    if m == GeneralizeMeta then nValues else nMeta
  }

  /** The generalization decision of one side: the smaller of the two column
      lists is broadcast, so both end up with as many slots as the larger. */
  function SideMode(nValues: nat, nMeta: nat): (m: Mode)
    ensures ValueSlotCount(m, nValues, nMeta) == Max(nValues, nMeta)
    ensures MetaSlotCount(m, nValues, nMeta) == Max(nValues, nMeta)
    ensures m == Direct <==> nValues == nMeta
  {
    if nValues < nMeta then GeneralizeValues
    else if nValues > nMeta then GeneralizeMeta
    else Direct
  }

  function FrameOf(cfg: Config, s: Side): Frame
  {
    if s == A then cfg.frameA else cfg.frameB
  }

  function ValuesOf(cfg: Config, s: Side): seq<Value>
  {
    if s == A then cfg.valuesA else cfg.valuesB
  }

  function MetaNamesOf(cfg: Config, s: Side): seq<Value>
    requires cfg.meta.Columns?
  {
    if s == A then cfg.meta.namesA else cfg.meta.namesB
  }

  function LiteralOf(cfg: Config, s: Side): Value
    requires cfg.meta.Static?
  {
    if s == A then cfg.meta.literalA else cfg.meta.literalB
  }

  /** The record ids of one side of the pair index, in pair order. */
  function Ids(index: seq<(Value, Value)>, s: Side): seq<Value>
  {
    seq(|index|, i requires 0 <= i < |index| => if s == A then index[i].0 else index[i].1)
  }

  /** The generalization decision of a side depends on that side's column counts
      only, and is made only when metadata columns are in use (not static):
      fewer value columns than metadata columns generalize the values, more
      generalize the metadata. */
  function ModeOf(cfg: Config, s: Side): (m: Mode)
    ensures !cfg.meta.Columns? ==> m == Direct
    ensures m == GeneralizeValues <==> cfg.meta.Columns? && |ValuesOf(cfg, s)| < |MetaNamesOf(cfg, s)|
    ensures m == GeneralizeMeta <==> cfg.meta.Columns? && |ValuesOf(cfg, s)| > |MetaNamesOf(cfg, s)|
  {
    if cfg.meta.Columns? then SideMode(|ValuesOf(cfg, s)|, |MetaNamesOf(cfg, s)|) else Direct
  }

  /** The number of value slots of a side, which is also its number of metadata slots. */
  function SlotCount(cfg: Config, s: Side): nat
  {
    if cfg.meta.Columns? then Max(|ValuesOf(cfg, s)|, |MetaNamesOf(cfg, s)|) else |ValuesOf(cfg, s)|
  }

  /** Where a side's slots start in a value or metadata tuple: A first, then B. */
  function Offset(cfg: Config, s: Side): nat
  {
    if s == A then 0 else SlotCount(cfg, A)
  }

  /** `k` constant series of length `n`: the static metadata of one side. */
  function ConstantColumns(v: Value, n: nat, k: nat): seq<seq<Value>>
  {
    seq(k, _ => seq(n, _ => v))
  }

  /** The value columns of one side: the first value column broadcast once per
      metadata column when values are generalized (read as a whole column,
      not at the pair ids), and otherwise each declared column at the side's ids. */
  function ValueSlots(cfg: Config, index: seq<(Value, Value)>, s: Side): (r: Result<seq<seq<Value>>>)
    ensures r.Success? ==> |r.value| == SlotCount(cfg, s)
    ensures r.Failure? ==> r.error.IsLookupError()
  {
    if ModeOf(cfg, s) == GeneralizeValues then
      Broadcast(FrameOf(cfg, s), ValuesOf(cfg, s), |MetaNamesOf(cfg, s)|)
    else
      Gather(FrameOf(cfg, s), ValuesOf(cfg, s), Ids(index, s))
  }

  /** The metadata columns of one side, in static, generalized or direct mode. */
  function MetaSlots(cfg: Config, index: seq<(Value, Value)>, s: Side): (r: Result<seq<seq<Value>>>)
    requires !cfg.meta.NoMetadata?
    ensures r.Success? ==> |r.value| == SlotCount(cfg, s)
    ensures r.Failure? ==> r.error.IsLookupError()
  {
    if cfg.meta.Static? then
      Success(ConstantColumns(LiteralOf(cfg, s), |index|, |ValuesOf(cfg, s)|))
    else if ModeOf(cfg, s) == GeneralizeMeta then
      Broadcast(FrameOf(cfg, s), MetaNamesOf(cfg, s), |ValuesOf(cfg, s)|)
    else
      Gather(FrameOf(cfg, s), MetaNamesOf(cfg, s), Ids(index, s))
  }

  /** All column reads of a job, in the order the engine makes them: A values,
      B values, then A and B metadata. */
  function CollectSlots(cfg: Config, index: seq<(Value, Value)>): (r: Result<Slots>)
    ensures r.Success? ==> |r.value.valuesA| == SlotCount(cfg, A) && |r.value.valuesB| == SlotCount(cfg, B)
    ensures r.Success? && !cfg.meta.NoMetadata? ==>
      |r.value.metaA| == |r.value.valuesA| && |r.value.metaB| == |r.value.valuesB|
    ensures r.Success? && cfg.meta.NoMetadata? ==> r.value.metaA == [] && r.value.metaB == []
    ensures r.Failure? ==> r.error.IsLookupError()
  {
    var va := ValueSlots(cfg, index, A);
    var vb := ValueSlots(cfg, index, B);
    if va.Failure? then Failure(va.error)
    else if vb.Failure? then Failure(vb.error)
    else if cfg.meta.NoMetadata? then Success(Slots(va.value, vb.value, [], []))
    else
      var ma := MetaSlots(cfg, index, A);
      var mb := MetaSlots(cfg, index, B);
      if ma.Failure? then Failure(ma.error)
      else if mb.Failure? then Failure(mb.error)
      else Success(Slots(va.value, vb.value, ma.value, mb.value))
  }

  /** The length of the shortest column. */
  function MinLen(cols: seq<seq<Value>>): (n: nat)
    requires cols != []
    ensures forall j :: 0 <= j < |cols| ==> n <= |cols[j]|
    ensures exists j :: 0 <= j < |cols| && n == |cols[j]|
    decreases |cols|
  {
    if |cols| == 1 then |cols[0]|
    else
      var rest := MinLen(cols[1..]);
      if |cols[0]| <= rest then |cols[0]| else rest
  }

  /** `zip(*cols)`: the i-th tuple holds the i-th entry of every column, up to
      the shortest column; no column at all gives no tuple. */
  function Zip(cols: seq<seq<Value>>): (rows: seq<seq<Value>>)
    ensures cols == [] ==> rows == []
    ensures cols != [] ==> |rows| == MinLen(cols)
    ensures forall i :: 0 <= i < |rows| ==> |rows[i]| == |cols|
    ensures forall i, j :: 0 <= i < |rows| && 0 <= j < |cols| ==> i < |cols[j]| && rows[i][j] == cols[j][i]
  {
    if cols == [] then []
    else
      seq(MinLen(cols), i requires 0 <= i < MinLen(cols) =>
        seq(|cols|, j requires 0 <= j < |cols| => cols[j][i]))
  }

  /** `[s.apply(tr) for s in cols]`. */
  function Transformed(tr: Transform, cols: seq<seq<Value>>): (r: seq<seq<Value>>)
    ensures |r| == |cols|
    ensures forall j :: 0 <= j < |cols| ==> |r[j]| == |cols[j]|
    ensures forall j, i :: 0 <= j < |cols| && 0 <= i < |cols[j]| ==> r[j][i] == Apply(tr, cols[j][i])
  {
    seq(|cols|, j requires 0 <= j < |cols| =>
      seq(|cols[j]|, i requires 0 <= i < |cols[j]| => Apply(tr, cols[j][i])))
  }

  /** The transformed columns zipped into rows. */
  function Rows(tr: Transform, cols: seq<seq<Value>>): (rows: seq<seq<Value>>)
    ensures cols == [] ==> rows == []
    ensures forall j :: 0 <= j < |cols| ==> |rows| <= |cols[j]|
    ensures cols != [] ==> exists j :: 0 <= j < |cols| && |rows| == |cols[j]|
    ensures forall i :: 0 <= i < |rows| ==> |rows[i]| == |cols|
    ensures forall i, j :: 0 <= i < |rows| && 0 <= j < |cols| ==> rows[i][j] == Apply(tr, cols[j][i])
  {
    var tcols := Transformed(tr, cols);
    var rows := Zip(tcols);
    assert cols != [] ==> exists j :: 0 <= j < |cols| && |rows| == |tcols[j]|;
    rows
  }

  function SideValues(sl: Slots, s: Side): seq<seq<Value>>
  {
    if s == A then sl.valuesA else sl.valuesB
  }

  function SideMeta(sl: Slots, s: Side): seq<seq<Value>>
  {
    if s == A then sl.metaA else sl.metaB
  }

  function ValueColumns(sl: Slots): seq<seq<Value>>
  {
    sl.valuesA + sl.valuesB
  }

  function MetaColumns(sl: Slots): seq<seq<Value>>
  {
    sl.metaA + sl.metaB
  }

  /** Transform, zip and tuple the collected columns: one aligned record per
      row, A columns before B columns. */
  function Emit(cfg: Config, sl: Slots): (r: seq<Aligned>)
    ensures forall i :: 0 <= i < |r| ==> (r[i].Pair? <==> !cfg.meta.NoMetadata?)
    ensures forall i :: 0 <= i < |r| ==> |r[i].values| == |ValueColumns(sl)|
  {
    var valueRows := Rows(cfg.transformVals, ValueColumns(sl));
    if cfg.meta.NoMetadata? then
      seq(|valueRows|, i requires 0 <= i < |valueRows| => Single(valueRows[i]))
    else
      var metaRows := Rows(cfg.transformMeta, MetaColumns(sl));
      seq(Min(|valueRows|, |metaRows|), i requires 0 <= i < Min(|valueRows|, |metaRows|) =>
        Pair(valueRows[i], metaRows[i]))
  }

  /** The emitted series stops at its shortest column, value or metadata: it is
      no longer than any of them and as long as one of them. */
  lemma EmitLength(cfg: Config, sl: Slots)
    ensures ValueColumns(sl) == [] ==> Emit(cfg, sl) == []
    ensures !cfg.meta.NoMetadata? && MetaColumns(sl) == [] ==> Emit(cfg, sl) == []
    ensures forall j :: 0 <= j < |ValueColumns(sl)| ==> |Emit(cfg, sl)| <= |ValueColumns(sl)[j]|
    ensures !cfg.meta.NoMetadata? ==> forall j :: 0 <= j < |MetaColumns(sl)| ==> |Emit(cfg, sl)| <= |MetaColumns(sl)[j]|
    ensures ValueColumns(sl) != [] && (cfg.meta.NoMetadata? || MetaColumns(sl) != []) ==>
      (exists j :: 0 <= j < |ValueColumns(sl)| && |Emit(cfg, sl)| == |ValueColumns(sl)[j]|) ||
      (!cfg.meta.NoMetadata? && exists j :: 0 <= j < |MetaColumns(sl)| && |Emit(cfg, sl)| == |MetaColumns(sl)[j]|)
  {
    var n := |Emit(cfg, sl)|;
    var vr := Rows(cfg.transformVals, ValueColumns(sl));
    if cfg.meta.NoMetadata? {
      assert n == |vr|;
    } else {
      var mr := Rows(cfg.transformMeta, MetaColumns(sl));
      assert n == Min(|vr|, |mr|);
    }
  }

  /** Every record is a pair exactly when metadata is configured; the j-th entry
      of the i-th record is the transformed i-th cell of the j-th value column
      (A columns first), and likewise for metadata. */
  lemma EmitRecords(cfg: Config, sl: Slots, i: nat)
    requires i < |Emit(cfg, sl)|
    ensures Emit(cfg, sl)[i].Pair? <==> !cfg.meta.NoMetadata?
    ensures |Emit(cfg, sl)[i].values| == |ValueColumns(sl)|
    ensures forall j :: 0 <= j < |ValueColumns(sl)| ==>
      i < |ValueColumns(sl)[j]| && Emit(cfg, sl)[i].values[j] == Apply(cfg.transformVals, ValueColumns(sl)[j][i])
    ensures Emit(cfg, sl)[i].Pair? ==> |Emit(cfg, sl)[i].meta| == |MetaColumns(sl)|
    ensures Emit(cfg, sl)[i].Pair? ==> forall j :: 0 <= j < |MetaColumns(sl)| ==>
      i < |MetaColumns(sl)[j]| && Emit(cfg, sl)[i].meta[j] == Apply(cfg.transformMeta, MetaColumns(sl)[j][i])
  {
    var vr := Rows(cfg.transformVals, ValueColumns(sl));
    if cfg.meta.NoMetadata? {
      assert Emit(cfg, sl)[i] == Single(vr[i]);
    } else {
      var mr := Rows(cfg.transformMeta, MetaColumns(sl));
      assert Emit(cfg, sl)[i] == Pair(vr[i], mr[i]);
    }
  }

  /** The aligned series of a validated job. */
  function Align(cfg: Config, index: seq<(Value, Value)>): (r: Result<seq<Aligned>>)
    ensures r.Success? <==> CollectSlots(cfg, index).Success?
    ensures r.Failure? ==> r.error.IsLookupError()
  {
    var sl := CollectSlots(cfg, index);
    if sl.Failure? then Failure(sl.error) else Success(Emit(cfg, sl.value))
  }

  /** The checks made before any table is read, then the listified column lists
      and the metadata mode. */
  function Configure(
    dfA: Option<Frame>, dfB: Option<Frame>,
    valuesA: Value, valuesB: Value, metaA: Option<Value>, metaB: Option<Value>,
    transformVals: Transform, transformMeta: Transform, staticMeta: bool): (r: Result<Config>)
    ensures r.Success? <==>
      dfA.Some? && dfB.Some? && !transformVals.NotCallable? && !transformMeta.NotCallable? && metaA.None? == metaB.None?
    ensures r.Failure? ==> r.error.IsConfigurationError()
    ensures r.Success? ==>
      Some(r.value.frameA) == dfA && Some(r.value.frameB) == dfB &&
      r.value.valuesA == Listify(valuesA) && r.value.valuesB == Listify(valuesB) &&
      r.value.transformVals == transformVals && r.value.transformMeta == transformMeta
    ensures r.Success? ==>
      (r.value.meta.NoMetadata? <==> metaA.None?) &&
      (r.value.meta.Static? <==> metaA.Some? && staticMeta) &&
      (r.value.meta.Columns? ==> r.value.meta == Columns(Listify(metaA.value), Listify(metaB.value))) &&
      (r.value.meta.Static? ==> r.value.meta == Static(metaA.value, metaB.value))
  {
    if dfA.None? then Failure(DfANone)
    else if dfB.None? then Failure(DfBNone)
    else if transformVals.NotCallable? then Failure(TransformValsNotCallable)
    else if transformMeta.NotCallable? then Failure(TransformMetaNotCallable)
    else if metaA.None? != metaB.None? then Failure(OneSidedMetadata)
    else
      var meta :=
        if metaA.None? then NoMetadata
        else if !staticMeta then Columns(Listify(metaA.value), Listify(metaB.value))
        else Static(metaA.value, metaB.value);
      Success(Config(dfA.value, dfB.value, Listify(valuesA), Listify(valuesB), meta, transformVals, transformMeta))
  }

  /** The series of aligned records for one job, or the error the engine raises. */
  function ResolutionSeries(
    dfA: Option<Frame>, dfB: Option<Frame>, index: seq<(Value, Value)>,
    valuesA: Value, valuesB: Value, metaA: Option<Value>, metaB: Option<Value>,
    transformVals: Transform, transformMeta: Transform, staticMeta: bool): (r: Result<seq<Aligned>>)
    ensures r.Failure? ==> r.error.IsConfigurationError() || r.error.IsLookupError()
    ensures r.Success? ==> Configure(dfA, dfB, valuesA, valuesB, metaA, metaB, transformVals, transformMeta, staticMeta).Success?
  {
    var cfg := Configure(dfA, dfB, valuesA, valuesB, metaA, metaB, transformVals, transformMeta, staticMeta);
    if cfg.Failure? then Failure(cfg.error) else Align(cfg.value, index)
  }

  // Properties of the aligned series

  /** A successful alignment is the emission of the collected slots. */
  lemma AlignIsEmit(cfg: Config, index: seq<(Value, Value)>)
    requires Align(cfg, index).Success?
    ensures CollectSlots(cfg, index).Success?
    ensures Align(cfg, index).value == Emit(cfg, CollectSlots(cfg, index).value)
  {
  }

  /** Each side's slots are what that side's column reads returned. */
  lemma SlotParts(cfg: Config, index: seq<(Value, Value)>, sl: Slots)
    requires CollectSlots(cfg, index) == Success(sl)
    ensures ValueSlots(cfg, index, A) == Success(sl.valuesA)
    ensures ValueSlots(cfg, index, B) == Success(sl.valuesB)
    ensures !cfg.meta.NoMetadata? ==> MetaSlots(cfg, index, A) == Success(sl.metaA)
    ensures !cfg.meta.NoMetadata? ==> MetaSlots(cfg, index, B) == Success(sl.metaB)
  {
  }

  /** Both of the above. */
  lemma AlignParts(cfg: Config, index: seq<(Value, Value)>)
    requires Align(cfg, index).Success?
    ensures CollectSlots(cfg, index).Success?
    ensures Align(cfg, index).value == Emit(cfg, CollectSlots(cfg, index).value)
    ensures ValueSlots(cfg, index, A) == Success(CollectSlots(cfg, index).value.valuesA)
    ensures ValueSlots(cfg, index, B) == Success(CollectSlots(cfg, index).value.valuesB)
    ensures !cfg.meta.NoMetadata? ==> MetaSlots(cfg, index, A) == Success(CollectSlots(cfg, index).value.metaA)
    ensures !cfg.meta.NoMetadata? ==> MetaSlots(cfg, index, B) == Success(CollectSlots(cfg, index).value.metaB)
  {
    AlignIsEmit(cfg, index);
    SlotParts(cfg, index, CollectSlots(cfg, index).value);
  }

  /** Validation comes first: the series fails with a configuration error exactly
      when a table is missing, a transform is not callable, or metadata is given
      for one side only; the column reads only ever raise lookup errors. */
  lemma ConfigurationErrors(
    dfA: Option<Frame>, dfB: Option<Frame>, index: seq<(Value, Value)>,
    valuesA: Value, valuesB: Value, metaA: Option<Value>, metaB: Option<Value>,
    transformVals: Transform, transformMeta: Transform, staticMeta: bool)
    ensures
      var r := ResolutionSeries(dfA, dfB, index, valuesA, valuesB, metaA, metaB, transformVals, transformMeta, staticMeta);
      (r.Failure? && r.error.IsConfigurationError()) <==>
      (dfA.None? || dfB.None? || transformVals.NotCallable? || transformMeta.NotCallable? || metaA.None? != metaB.None?)
    ensures
      var r := ResolutionSeries(dfA, dfB, index, valuesA, valuesB, metaA, metaB, transformVals, transformMeta, staticMeta);
      r.Failure? ==> r.error.IsConfigurationError() || r.error.IsLookupError()
    ensures
      var r := ResolutionSeries(dfA, dfB, index, valuesA, valuesB, metaA, metaB, transformVals, transformMeta, staticMeta);
      (dfA.None? ==> r == Failure(DfANone)) &&
      (dfA.Some? && dfB.None? ==> r == Failure(DfBNone)) &&
      (dfA.Some? && dfB.Some? && transformVals.NotCallable? ==> r == Failure(TransformValsNotCallable)) &&
      (dfA.Some? && dfB.Some? && !transformVals.NotCallable? && transformMeta.NotCallable? ==>
        r == Failure(TransformMetaNotCallable)) &&
      ((dfA.Some? && dfB.Some? && !transformVals.NotCallable? && !transformMeta.NotCallable? &&
        metaA.None? != metaB.None?) ==> r == Failure(OneSidedMetadata))
  {
    var c := Configure(dfA, dfB, valuesA, valuesB, metaA, metaB, transformVals, transformMeta, staticMeta);
    if c.Success? {
      var sl := CollectSlots(c.value, index);
      assert sl.Failure? ==> sl.error.IsLookupError();
    }
  }

  /** With metadata, every record is a pair whose value tuple and metadata tuple
      have the same length: each side's slot count, A then B. */
  lemma TupleWidthsAgree(cfg: Config, index: seq<(Value, Value)>, i: nat)
    requires Align(cfg, index).Success?
    requires i < |Align(cfg, index).value|
    ensures |Align(cfg, index).value[i].values| == SlotCount(cfg, A) + SlotCount(cfg, B)
    ensures !cfg.meta.NoMetadata? ==>
      Align(cfg, index).value[i].Pair? &&
      |Align(cfg, index).value[i].meta| == |Align(cfg, index).value[i].values|
    ensures cfg.meta.NoMetadata? ==> Align(cfg, index).value[i].Single?
  {
    var sl := CollectSlots(cfg, index).value;
    EmitRecords(cfg, sl, i);
  }

  /** Static metadata: every metadata entry of every record is the (transformed)
      constant of its side, one per value slot, whatever the tables hold. */
  lemma StaticMetadataIsLiteral(cfg: Config, index: seq<(Value, Value)>, i: nat)
    requires cfg.meta.Static?
    requires Align(cfg, index).Success?
    requires i < |Align(cfg, index).value|
    ensures Align(cfg, index).value[i].Pair?
    ensures Align(cfg, index).value[i].meta ==
      seq(|cfg.valuesA|, _ => Apply(cfg.transformMeta, cfg.meta.literalA)) +
      seq(|cfg.valuesB|, _ => Apply(cfg.transformMeta, cfg.meta.literalB))
  {
    AlignIsEmit(cfg, index);
    var sl := CollectSlots(cfg, index).value;
    SlotParts(cfg, index, sl);
    assert sl.metaA == ConstantColumns(cfg.meta.literalA, |index|, |cfg.valuesA|);
    assert sl.metaB == ConstantColumns(cfg.meta.literalB, |index|, |cfg.valuesB|);
    ConstantEmit(cfg, sl, |index|, i);
  }

  /** The emission of constant metadata columns: each record's metadata is the
      transformed constants, A's then B's. */
  lemma ConstantEmit(cfg: Config, sl: Slots, n: nat, i: nat)
    requires cfg.meta.Static?
    requires sl.metaA == ConstantColumns(cfg.meta.literalA, n, |cfg.valuesA|)
    requires sl.metaB == ConstantColumns(cfg.meta.literalB, n, |cfg.valuesB|)
    requires i < |Emit(cfg, sl)|
    ensures Emit(cfg, sl)[i].Pair?
    ensures Emit(cfg, sl)[i].meta ==
      seq(|cfg.valuesA|, _ => Apply(cfg.transformMeta, cfg.meta.literalA)) +
      seq(|cfg.valuesB|, _ => Apply(cfg.transformMeta, cfg.meta.literalB))
  {
    EmitRecords(cfg, sl, i);
    var meta := Emit(cfg, sl)[i].meta;
    var expected :=
      seq(|cfg.valuesA|, _ => Apply(cfg.transformMeta, cfg.meta.literalA)) +
      seq(|cfg.valuesB|, _ => Apply(cfg.transformMeta, cfg.meta.literalB));
    assert |meta| == |expected|;
    forall j | 0 <= j < |meta| ensures meta[j] == expected[j] {
      if j < |cfg.valuesA| {
        assert MetaColumns(sl)[j] == sl.metaA[j];
      } else {
        assert MetaColumns(sl)[j] == sl.metaB[j - |cfg.valuesA|];
      }
    }
  }

  /** A side whose values are not generalized contributes its declared columns, in
      declared order, each read at that side's record id of the i-th pair. */
  lemma ValuesReadAtPairIds(cfg: Config, index: seq<(Value, Value)>, s: Side, i: nat, j: nat)
    requires Align(cfg, index).Success?
    requires ModeOf(cfg, s) != GeneralizeValues
    requires i < |Align(cfg, index).value| && j < |ValuesOf(cfg, s)|
    ensures i < |index|
    ensures ValuesOf(cfg, s)[j] in FrameOf(cfg, s).cells && Ids(index, s)[i] in FrameOf(cfg, s).rows
    ensures Offset(cfg, s) + j < |Align(cfg, index).value[i].values|
    ensures Align(cfg, index).value[i].values[Offset(cfg, s) + j] ==
      Apply(cfg.transformVals, FrameOf(cfg, s).cells[ValuesOf(cfg, s)[j]][Ids(index, s)[i]])
  {
    AlignParts(cfg, index);
    var sl := CollectSlots(cfg, index).value;
    EmitRecords(cfg, sl, i);
    var cols := SideValues(sl, s);
    assert ValueSlots(cfg, index, s) == Success(cols);
    assert Gather(FrameOf(cfg, s), ValuesOf(cfg, s), Ids(index, s)) == Success(cols);
    assert |cols| == |ValuesOf(cfg, s)|;
    ValueSlotAtOffset(cfg, sl, s, j);
    assert cols[j] == ColumnAt(FrameOf(cfg, s), ValuesOf(cfg, s)[j], Ids(index, s)).value;
    assert |cols[j]| == |index|;
  }

  /** A side whose metadata columns are not generalized contributes its declared
      metadata columns, in declared order, each read at that side's record id of
      the i-th pair. */
  lemma MetaReadAtPairIds(cfg: Config, index: seq<(Value, Value)>, s: Side, i: nat, j: nat)
    requires Align(cfg, index).Success?
    requires cfg.meta.Columns?
    requires ModeOf(cfg, s) != GeneralizeMeta
    requires i < |Align(cfg, index).value| && j < |MetaNamesOf(cfg, s)|
    ensures Align(cfg, index).value[i].Pair?
    ensures i < |index|
    ensures MetaNamesOf(cfg, s)[j] in FrameOf(cfg, s).cells && Ids(index, s)[i] in FrameOf(cfg, s).rows
    ensures Offset(cfg, s) + j < |Align(cfg, index).value[i].meta|
    ensures Align(cfg, index).value[i].meta[Offset(cfg, s) + j] ==
      Apply(cfg.transformMeta, FrameOf(cfg, s).cells[MetaNamesOf(cfg, s)[j]][Ids(index, s)[i]])
  {
    AlignParts(cfg, index);
    var sl := CollectSlots(cfg, index).value;
    EmitRecords(cfg, sl, i);
    var cols := SideMeta(sl, s);
    assert MetaSlots(cfg, index, s) == Success(cols);
    assert Gather(FrameOf(cfg, s), MetaNamesOf(cfg, s), Ids(index, s)) == Success(cols);
    assert |cols| == |MetaNamesOf(cfg, s)|;
    SlotAtOffset(cfg, sl, s, j);
    assert cols[j] == ColumnAt(FrameOf(cfg, s), MetaNamesOf(cfg, s)[j], Ids(index, s)).value;
    assert |cols[j]| == |index|;
  }

  /** A side whose values are generalized repeats its first value column once per
      metadata column, read over the whole table: the i-th record holds the cell of
      the table's i-th row, not of the i-th pair's record. */
  lemma GeneralizedValuesBroadcast(cfg: Config, index: seq<(Value, Value)>, s: Side, i: nat, k: nat)
    requires Align(cfg, index).Success?
    requires ModeOf(cfg, s) == GeneralizeValues
    requires i < |Align(cfg, index).value| && k < |MetaNamesOf(cfg, s)|
    ensures |ValuesOf(cfg, s)| > 0 && ValuesOf(cfg, s)[0] in FrameOf(cfg, s).cells
    ensures i < |FrameOf(cfg, s).rows|
    ensures Offset(cfg, s) + k < |Align(cfg, index).value[i].values|
    ensures Align(cfg, index).value[i].values[Offset(cfg, s) + k] ==
      Apply(cfg.transformVals, FrameOf(cfg, s).cells[ValuesOf(cfg, s)[0]][FrameOf(cfg, s).rows[i]])
  {
    AlignParts(cfg, index);
    var sl := CollectSlots(cfg, index).value;
    EmitRecords(cfg, sl, i);
    var cols := SideValues(sl, s);
    assert ValueSlots(cfg, index, s) == Success(cols);
    assert Broadcast(FrameOf(cfg, s), ValuesOf(cfg, s), |MetaNamesOf(cfg, s)|) == Success(cols);
    assert |cols| == |MetaNamesOf(cfg, s)|;
    ValueSlotAtOffset(cfg, sl, s, k);
    assert cols[k] == WholeColumn(FrameOf(cfg, s), ValuesOf(cfg, s)[0]).value;
    assert |cols[k]| == |FrameOf(cfg, s).rows|;
  }

  /** A side whose metadata is generalized repeats its first metadata column once
      per value column, read over the whole table. */
  lemma GeneralizedMetadataBroadcast(cfg: Config, index: seq<(Value, Value)>, s: Side, i: nat, k: nat)
    requires Align(cfg, index).Success?
    requires ModeOf(cfg, s) == GeneralizeMeta
    requires i < |Align(cfg, index).value| && k < |ValuesOf(cfg, s)|
    ensures |MetaNamesOf(cfg, s)| > 0 && MetaNamesOf(cfg, s)[0] in FrameOf(cfg, s).cells
    ensures i < |FrameOf(cfg, s).rows|
    ensures Align(cfg, index).value[i].Pair?
    ensures Offset(cfg, s) + k < |Align(cfg, index).value[i].meta|
    ensures Align(cfg, index).value[i].meta[Offset(cfg, s) + k] ==
      Apply(cfg.transformMeta, FrameOf(cfg, s).cells[MetaNamesOf(cfg, s)[0]][FrameOf(cfg, s).rows[i]])
  {
    AlignParts(cfg, index);
    var sl := CollectSlots(cfg, index).value;
    EmitRecords(cfg, sl, i);
    var cols := SideMeta(sl, s);
    assert MetaSlots(cfg, index, s) == Success(cols);
    assert Broadcast(FrameOf(cfg, s), MetaNamesOf(cfg, s), |ValuesOf(cfg, s)|) == Success(cols);
    assert |cols| == |ValuesOf(cfg, s)|;
    SlotAtOffset(cfg, sl, s, k);
    assert cols[k] == WholeColumn(FrameOf(cfg, s), MetaNamesOf(cfg, s)[0]).value;
    assert |cols[k]| == |FrameOf(cfg, s).rows|;
  }

  /** The j-th slot of a side sits at the side's offset in the value and metadata tuples. */
  lemma SlotAtOffset(cfg: Config, sl: Slots, s: Side, j: nat)
    requires |sl.valuesA| == SlotCount(cfg, A) && |sl.valuesB| == SlotCount(cfg, B)
    requires |sl.metaA| == |sl.valuesA| && |sl.metaB| == |sl.valuesB|
    requires j < SlotCount(cfg, s)
    ensures j < |SideValues(sl, s)| && Offset(cfg, s) + j < |ValueColumns(sl)|
    ensures ValueColumns(sl)[Offset(cfg, s) + j] == SideValues(sl, s)[j]
    ensures j < |SideMeta(sl, s)| && Offset(cfg, s) + j < |MetaColumns(sl)|
    ensures MetaColumns(sl)[Offset(cfg, s) + j] == SideMeta(sl, s)[j]
  {
    if s == B {
      assert Offset(cfg, s) == |sl.valuesA| == |sl.metaA|;
    }
  }

  /** The value half of the above, for a job without metadata. */
  lemma ValueSlotAtOffset(cfg: Config, sl: Slots, s: Side, j: nat)
    requires |sl.valuesA| == SlotCount(cfg, A) && |sl.valuesB| == SlotCount(cfg, B)
    requires j < SlotCount(cfg, s)
    ensures j < |SideValues(sl, s)| && Offset(cfg, s) + j < |ValueColumns(sl)|
    ensures ValueColumns(sl)[Offset(cfg, s) + j] == SideValues(sl, s)[j]
  {
    if s == B {
      assert Offset(cfg, s) == |sl.valuesA|;
    }
  }

  /** When neither side is generalized there is one record per pair (none at all
      when the job names no value column). */
  lemma OneRecordPerPair(cfg: Config, index: seq<(Value, Value)>)
    requires Align(cfg, index).Success?
    requires ModeOf(cfg, A) == Direct && ModeOf(cfg, B) == Direct
    ensures |Align(cfg, index).value| == if cfg.valuesA + cfg.valuesB == [] then 0 else |index|
  {
    AlignIsEmit(cfg, index);
    var sl := CollectSlots(cfg, index).value;
    PairColumnLengths(cfg, index, sl, A);
    PairColumnLengths(cfg, index, sl, B);
    assert SideValues(sl, A) == sl.valuesA && SideValues(sl, B) == sl.valuesB;
    assert SideMeta(sl, A) == sl.metaA && SideMeta(sl, B) == sl.metaB;
    assert |sl.valuesA| == |cfg.valuesA| && |sl.valuesB| == |cfg.valuesB|;
    UniformEmitLength(cfg, sl, |index|);
  }

  /** Columns all of length `n`, put side by side, are still all of length `n`. */
  lemma SameLengthConcat(x: seq<seq<Value>>, y: seq<seq<Value>>, n: nat)
    requires forall j :: 0 <= j < |x| ==> |x[j]| == n
    requires forall j :: 0 <= j < |y| ==> |y[j]| == n
    ensures forall j :: 0 <= j < |x + y| ==> |(x + y)[j]| == n
  {
  }

  /** When every column of both sides has the same length `n`, the series has
      `n` records (none when there is no value column). */
  lemma UniformEmitLength(cfg: Config, sl: Slots, n: nat)
    requires forall j :: 0 <= j < |sl.valuesA| ==> |sl.valuesA[j]| == n
    requires forall j :: 0 <= j < |sl.valuesB| ==> |sl.valuesB[j]| == n
    requires !cfg.meta.NoMetadata? ==> |sl.metaA| == |sl.valuesA| && |sl.metaB| == |sl.valuesB|
    requires !cfg.meta.NoMetadata? ==> forall j :: 0 <= j < |sl.metaA| ==> |sl.metaA[j]| == n
    requires !cfg.meta.NoMetadata? ==> forall j :: 0 <= j < |sl.metaB| ==> |sl.metaB[j]| == n
    ensures |Emit(cfg, sl)| == if sl.valuesA + sl.valuesB == [] then 0 else n
  {
    SameLengthConcat(sl.valuesA, sl.valuesB, n);
    if !cfg.meta.NoMetadata? {
      SameLengthConcat(sl.metaA, sl.metaB, n);
    }
    EmitLength(cfg, sl);
  }

  /** The slots of a side that are read at the pair ids (or are constant series
      over the pairs) are as long as the index: all of them unless that side's
      values, or its metadata, are broadcast from a whole column. */
  lemma PairColumnLengths(cfg: Config, index: seq<(Value, Value)>, sl: Slots, s: Side)
    requires CollectSlots(cfg, index) == Success(sl)
    ensures ModeOf(cfg, s) != GeneralizeValues ==>
      forall j :: 0 <= j < |SideValues(sl, s)| ==> |SideValues(sl, s)[j]| == |index|
    ensures !cfg.meta.NoMetadata? && ModeOf(cfg, s) != GeneralizeMeta ==>
      forall j :: 0 <= j < |SideMeta(sl, s)| ==> |SideMeta(sl, s)[j]| == |index|
  {
    SlotParts(cfg, index, sl);
    var vs := SideValues(sl, s);
    assert ValueSlots(cfg, index, s) == Success(vs);
    if ModeOf(cfg, s) != GeneralizeValues {
      assert Gather(FrameOf(cfg, s), ValuesOf(cfg, s), Ids(index, s)) == Success(vs);
    }
    if !cfg.meta.NoMetadata? && ModeOf(cfg, s) != GeneralizeMeta {
      var ms := SideMeta(sl, s);
      assert MetaSlots(cfg, index, s) == Success(ms);
      if cfg.meta.Columns? {
        assert Gather(FrameOf(cfg, s), MetaNamesOf(cfg, s), Ids(index, s)) == Success(ms);
      }
    }
  }

  /** No pairs, no records, whatever the generalization: a broadcast whole
      column still meets a column read at the (absent) pair ids. */
  lemma ZeroPairsEmpty(cfg: Config)
    requires Align(cfg, []).Success?
    ensures Align(cfg, []).value == []
  {
    AlignIsEmit(cfg, []);
    var sl := CollectSlots(cfg, []).value;
    EmitLength(cfg, sl);
    if ValueColumns(sl) != [] {
      var s := if SlotCount(cfg, A) > 0 then A else B;
      assert SlotCount(cfg, s) > 0;
      PairColumnLengths(cfg, [], sl, s);
      if ModeOf(cfg, s) == GeneralizeValues {
        SlotAtOffset(cfg, sl, s, 0);
        assert |MetaColumns(sl)[Offset(cfg, s)]| == 0;
      } else {
        ValueSlotAtOffset(cfg, sl, s, 0);
        assert |ValueColumns(sl)[Offset(cfg, s)]| == 0;
      }
    }
  }
}
