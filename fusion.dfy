/** The fusion engine: a queue of resolution jobs, and `fuse`, which aligns the
    two tables for every job and resolves each aligned record with the job's
    conflict-resolution strategy. */
module Fusion {
  import opened Values
  import opened Frames
  import opened Alignment

  /** The conflict-resolution function a job names. */
  datatype Strategy = Choose | NoGossip | ChooseRandom | Vote | Other(name: string)

  /** The conflict-resolution functions themselves: what a strategy returns for
      one aligned record and the job's extra arguments. */
  type Strategies = (Strategy, Aligned, seq<Value>) -> Value

  /** One queued resolution job, holding the arguments of `queue_resolve` as given. */
  datatype Job = Job(
    fun: Strategy,
    valuesA: Value, valuesB: Value,
    metaA: Option<Value>, metaB: Option<Value>,
    transformVals: Transform, transformMeta: Transform,
    staticMeta: bool,
    params: Option<seq<Value>>,
    kwargs: map<string, Value>)

  /** The extra arguments passed to the strategy: none when `params` is absent. */
  function Args(params: Option<seq<Value>>): seq<Value>
  {
    if params.Some? then params.value else []
  }

  /** `resolve`: the strategy applied to every aligned record, in order. */
  function Resolve(impl: Strategies, fun: Strategy, data: seq<Aligned>, params: Option<seq<Value>>): (r: seq<Value>)
    ensures |r| == |data|
    ensures forall i :: 0 <= i < |data| ==> r[i] == impl(fun, data[i], Args(params))
    decreases |data|
  {
    if data == [] then []
    else Resolve(impl, fun, data[..|data| - 1], params) + [impl(fun, data[|data| - 1], Args(params))]
  }

  /** The aligned series of a job over the given tables and pair index. */
  function JobSeries(job: Job, dfA: Option<Frame>, dfB: Option<Frame>, index: seq<(Value, Value)>): Result<seq<Aligned>>
  {
    ResolutionSeries(dfA, dfB, index, job.valuesA, job.valuesB, job.metaA, job.metaB,
                     job.transformVals, job.transformMeta, job.staticMeta)
  }

  /** The resolved column of a job. */
  function JobColumn(impl: Strategies, job: Job, dfA: Option<Frame>, dfB: Option<Frame>, index: seq<(Value, Value)>): (r: Result<seq<Value>>)
    ensures r.Success? <==> JobSeries(job, dfA, dfB, index).Success?
    ensures r.Failure? ==> r.error == JobSeries(job, dfA, dfB, index).error
    ensures r.Success? ==> |r.value| == |JobSeries(job, dfA, dfB, index).value|
  {
    var series :- JobSeries(job, dfA, dfB, index);
    Success(Resolve(impl, job.fun, series, job.params))
  }

  /** The resolved column of every job, in queue order. */
  function JobColumns(impl: Strategies, queue: seq<Job>, dfA: Option<Frame>, dfB: Option<Frame>, index: seq<(Value, Value)>): (r: seq<Result<seq<Value>>>)
    ensures |r| == |queue|
    ensures forall j :: 0 <= j < |queue| ==> r[j] == JobColumn(impl, queue[j], dfA, dfB, index)
  {
    seq(|queue|, j requires 0 <= j < |queue| => JobColumn(impl, queue[j], dfA, dfB, index))
  }

  /** What `fuse` returns: the resolved columns side by side, or the error of the
      first failing job; concatenating no column at all is an error too. */
  function FuseResult(impl: Strategies, queue: seq<Job>, dfA: Option<Frame>, dfB: Option<Frame>, index: seq<(Value, Value)>): (r: Result<seq<seq<Value>>>)
    ensures queue == [] ==> r == Failure(NoObjectsToConcatenate)
    ensures r.Success? ==> |r.value| == |queue| && |queue| > 0
    ensures r.Failure? && queue != [] ==>
      exists j :: 0 <= j < |queue| && JobColumn(impl, queue[j], dfA, dfB, index) == Failure(r.error)
  {
    var cols :- Collect(JobColumns(impl, queue, dfA, dfB, index));
    if cols == [] then Failure(NoObjectsToConcatenate) else Success(cols)
  }

  /** `fuse` succeeds exactly when the queue is not empty and every job aligns;
      it then yields one column per job, in queue order, and column j holds the
      j-th job's strategy applied to each of its aligned records, with the job's
      parameters as extra arguments. */
  lemma OneColumnPerJob(impl: Strategies, queue: seq<Job>, dfA: Option<Frame>, dfB: Option<Frame>, index: seq<(Value, Value)>)
    ensures FuseResult(impl, queue, dfA, dfB, index).Success? <==>
      |queue| > 0 && forall j :: 0 <= j < |queue| ==> JobSeries(queue[j], dfA, dfB, index).Success?
    ensures FuseResult(impl, queue, dfA, dfB, index).Success? ==>
      var cols := FuseResult(impl, queue, dfA, dfB, index).value;
      |cols| == |queue| &&
      forall j :: 0 <= j < |queue| ==>
        var series := JobSeries(queue[j], dfA, dfB, index).value;
        |cols[j]| == |series| &&
        forall i :: 0 <= i < |series| ==> cols[j][i] == impl(queue[j].fun, series[i], Args(queue[j].params))
  {
    var fc := Collect(JobColumns(impl, queue, dfA, dfB, index));
    assert forall j :: 0 <= j < |queue| ==>
      (JobColumn(impl, queue[j], dfA, dfB, index).Success? <==> JobSeries(queue[j], dfA, dfB, index).Success?);
  }

  /** The job `trust_your_friends` queues tags every candidate with its source:
      each aligned record carries the metadata "a" once per A column and "b"
      once per B column, and `choose` receives the trusted source as its one
      extra argument. */
  lemma TrustedJobTagsSources(
    job: Job, c1: Value, c2: Value, trusted: Value,
    dfA: Option<Frame>, dfB: Option<Frame>, index: seq<(Value, Value)>, i: nat)
    requires job == Job(Choose, c1, c2, Some(Str("a")), Some(Str("b")), NoTransform, NoTransform, true, Some([trusted]), map[])
    requires JobSeries(job, dfA, dfB, index).Success?
    requires i < |JobSeries(job, dfA, dfB, index).value|
    ensures JobSeries(job, dfA, dfB, index).value[i].Pair?
    ensures JobSeries(job, dfA, dfB, index).value[i].meta ==
      seq(|Listify(c1)|, _ => Str("a")) + seq(|Listify(c2)|, _ => Str("b"))
    ensures Args(job.params) == [trusted]
  {
    var cfg := Configure(dfA, dfB, c1, c2, Some(Str("a")), Some(Str("b")), NoTransform, NoTransform, true).value;
    assert cfg.meta == Static(Str("a"), Str("b"));
    assert JobSeries(job, dfA, dfB, index) == Align(cfg, index);
    StaticMetadataIsLiteral(cfg, index, i);
  }

  /** The pairwise link fusion engine. */
  class FuseLinks {
    var resolutionQueue: seq<Job>
    var dfA: Option<Frame>
    var dfB: Option<Frame>
    var index: seq<(Value, Value)>

    constructor ()
      ensures resolutionQueue == [] && dfA == None && dfB == None && index == []
    {
      resolutionQueue := [];
      dfA := None;
      dfB := None;
      index := [];
    }

    /** Appends one job holding exactly the given arguments; nothing is validated. */
    method QueueResolve(
      fun: Strategy, valuesA: Value, valuesB: Value,
      metaA: Option<Value>, metaB: Option<Value>,
      transformVals: Transform, transformMeta: Transform,
      staticMeta: bool, params: Option<seq<Value>>, kwargs: map<string, Value>)
      modifies this`resolutionQueue
      ensures resolutionQueue ==
        old(resolutionQueue) + [Job(fun, valuesA, valuesB, metaA, metaB, transformVals, transformMeta, staticMeta, params, kwargs)]
    {
      resolutionQueue := resolutionQueue +
        [Job(fun, valuesA, valuesB, metaA, metaB, transformVals, transformMeta, staticMeta, params, kwargs)];
    }

    /** Resolve by trusting a source: `choose` with static metadata "a" / "b". */
    method TrustYourFriends(c1: Value, c2: Value, trusted: Value)
      modifies this`resolutionQueue
      ensures resolutionQueue == old(resolutionQueue) +
        [Job(Choose, c1, c2, Some(Str("a")), Some(Str("b")), NoTransform, NoTransform, true, Some([trusted]), map[])]
    {
      QueueResolve(Choose, c1, c2, Some(Str("a")), Some(Str("b")), NoTransform, NoTransform, true, Some([trusted]), map[]);
    }

    method NoGossiping(c1: Value, c2: Value)
      modifies this`resolutionQueue
      ensures resolutionQueue == old(resolutionQueue) +
        [Job(NoGossip, c1, c2, None, None, NoTransform, NoTransform, false, None, map[])]
    {
      QueueResolve(NoGossip, c1, c2, None, None, NoTransform, NoTransform, false, None, map[]);
    }

    method RollTheDice(c1: Value, c2: Value)
      modifies this`resolutionQueue
      ensures resolutionQueue == old(resolutionQueue) +
        [Job(ChooseRandom, c1, c2, None, None, NoTransform, NoTransform, false, None, map[])]
    {
      QueueResolve(ChooseRandom, c1, c2, None, None, NoTransform, NoTransform, false, None, map[]);
    }

    method CryWithTheWolves(c1: Value, c2: Value)
      modifies this`resolutionQueue
      ensures resolutionQueue == old(resolutionQueue) +
        [Job(Vote, c1, c2, None, None, NoTransform, NoTransform, false, None, map[])]
    {
      QueueResolve(Vote, c1, c2, None, None, NoTransform, NoTransform, false, None, map[]);
    }

    /** Keeps the inputs of a fusion run; the pair index is the index of the comparison vectors. */
    method FusionInit(vectors: seq<(Value, Value)>, dfA: Option<Frame>, dfB: Option<Frame>)
      modifies this`dfA, this`dfB, this`index
      ensures this.dfA == dfA && this.dfB == dfB && this.index == vectors
    {
      this.index := vectors;
      this.dfA := dfA;
      this.dfB := dfB;
    }

    /** Builds the aligned series of one job from the stored tables and pair index. */
    method MakeResolutionSeries(
      valuesA: Value, valuesB: Value, metaA: Option<Value>, metaB: Option<Value>,
      transformVals: Transform, transformMeta: Transform, staticMeta: bool)
      returns (r: Result<seq<Aligned>>)
      ensures r == ResolutionSeries(dfA, dfB, index, valuesA, valuesB, metaA, metaB, transformVals, transformMeta, staticMeta)
    {
      var cfg := CheckJob(dfA, dfB, valuesA, valuesB, metaA, metaB, transformVals, transformMeta, staticMeta);
      if cfg.Failure? {
        return Failure(cfg.error);
      }
      r := AlignColumns(cfg.value, index);
    }

    /** One job of the `fuse` loop: its aligned series, then `resolve` with the
        job's strategy and parameters. */
    method ResolveJob(impl: Strategies, job: Job) returns (r: Result<seq<Value>>)
      ensures r == JobColumn(impl, job, dfA, dfB, index)
    {
      var series := MakeResolutionSeries(job.valuesA, job.valuesB, job.metaA, job.metaB,
                                         job.transformVals, job.transformMeta, job.staticMeta);
      if series.Failure? {
        return Failure(series.error);
      }
      r := Success(Resolve(impl, job.fun, series.value, job.params));
    }

    /** Runs every queued job in order over the given tables and pair index. */
    method Fuse(impl: Strategies, vectors: seq<(Value, Value)>, dfA: Option<Frame>, dfB: Option<Frame>)
      returns (r: Result<seq<seq<Value>>>)
      modifies this`dfA, this`dfB, this`index
      ensures this.dfA == dfA && this.dfB == dfB && this.index == vectors
      ensures resolutionQueue == old(resolutionQueue)
      ensures r == FuseResult(impl, resolutionQueue, dfA, dfB, vectors)
    {
      FusionInit(vectors, dfA, dfB);
      ghost var columns := JobColumns(impl, resolutionQueue, dfA, dfB, vectors);
      var fused: seq<seq<Value>> := [];
      var i := 0;
      while i < |resolutionQueue|
        invariant 0 <= i <= |resolutionQueue|
        invariant this.dfA == dfA && this.dfB == dfB && this.index == vectors
        invariant Collect(columns[..i]) == Success(fused)
      {
        var column := ResolveJob(impl, resolutionQueue[i]);
        if column.Failure? {
          CollectStopsAtFirstFailure(columns, i);
          return Failure(column.error);
        }
        CollectExtend(columns, i, fused);
        fused := fused + [column.value];
        i := i + 1;
      }
      assert columns[..i] == columns;
      if fused == [] {
        return Failure(NoObjectsToConcatenate);
      }
      r := Success(fused);
    }
  }

  /** The checks made before any table is read, in the engine's order, then the
      listified column lists and the metadata mode. */
  method CheckJob(
    dfA: Option<Frame>, dfB: Option<Frame>,
    valuesA: Value, valuesB: Value, metaA: Option<Value>, metaB: Option<Value>,
    transformVals: Transform, transformMeta: Transform, staticMeta: bool)
    returns (r: Result<Config>)
    ensures r == Configure(dfA, dfB, valuesA, valuesB, metaA, metaB, transformVals, transformMeta, staticMeta)
  {
    if dfA.None? {
      return Failure(DfANone);
    }
    if dfB.None? {
      return Failure(DfBNone);
    }
    if transformVals.NotCallable? {
      return Failure(TransformValsNotCallable);
    }
    if transformMeta.NotCallable? {
      return Failure(TransformMetaNotCallable);
    }
    var valsA := Listify(valuesA);
    var valsB := Listify(valuesB);
    if metaA.None? != metaB.None? {
      return Failure(OneSidedMetadata);
    }
    var meta: Metadata;
    if metaA.None? {
      meta := NoMetadata;
    } else if !staticMeta {
      meta := Columns(Listify(metaA.value), Listify(metaB.value));
    } else {
      meta := Static(metaA.value, metaB.value);
    }
    r := Success(Config(dfA.value, dfB.value, valsA, valsB, meta, transformVals, transformMeta));
  }

  /** The column reads of a validated job, in the engine's order (A values,
      B values, A metadata, B metadata), then the transform and the zip. */
  method AlignColumns(cfg: Config, index: seq<(Value, Value)>) returns (r: Result<seq<Aligned>>)
    ensures r == Align(cfg, index)
  {
    var dataA := ReadValueSlots(cfg, index, A);
    if dataA.Failure? {
      return Failure(dataA.error);
    }
    var dataB := ReadValueSlots(cfg, index, B);
    if dataB.Failure? {
      return Failure(dataB.error);
    }
    if cfg.meta.NoMetadata? {
      return Success(Emit(cfg, Slots(dataA.value, dataB.value, [], [])));
    }
    var metadataA := ReadMetaSlots(cfg, index, A);
    if metadataA.Failure? {
      return Failure(metadataA.error);
    }
    var metadataB := ReadMetaSlots(cfg, index, B);
    if metadataB.Failure? {
      return Failure(metadataB.error);
    }
    r := Success(Emit(cfg, Slots(dataA.value, dataB.value, metadataA.value, metadataB.value)));
  }

  /** The value columns of one side: the generalization decision, then either the
      broadcast loop or the column-by-column read at the side's record ids. */
  method ReadValueSlots(cfg: Config, index: seq<(Value, Value)>, s: Side) returns (r: Result<seq<seq<Value>>>)
    ensures r == ValueSlots(cfg, index, s)
  {
    var frame := if s == A then cfg.frameA else cfg.frameB;
    var values := if s == A then cfg.valuesA else cfg.valuesB;
    var ids := seq(|index|, i requires 0 <= i < |index| => if s == A then index[i].0 else index[i].1);
    if cfg.meta.Columns? {
      var names := if s == A then cfg.meta.namesA else cfg.meta.namesB;
      if |values| < |names| {
        r := BroadcastColumn(frame, values, |names|);
        return;
      }
    }
    r := CollectColumns(frame, values, ids);
  }

  /** The metadata columns of one side: constant series for static metadata,
      otherwise the broadcast loop or the column-by-column read. */
  method ReadMetaSlots(cfg: Config, index: seq<(Value, Value)>, s: Side) returns (r: Result<seq<seq<Value>>>)
    requires !cfg.meta.NoMetadata?
    ensures r == MetaSlots(cfg, index, s)
  {
    var frame := if s == A then cfg.frameA else cfg.frameB;
    var values := if s == A then cfg.valuesA else cfg.valuesB;
    if cfg.meta.Static? {
      var literal := if s == A then cfg.meta.literalA else cfg.meta.literalB;
      var cols := ConstantSeries(literal, |index|, |values|);
      r := Success(cols);
      return;
    }
    var names := if s == A then cfg.meta.namesA else cfg.meta.namesB;
    var ids := seq(|index|, i requires 0 <= i < |index| => if s == A then index[i].0 else index[i].1);
    if |values| > |names| {
      r := BroadcastColumn(frame, names, |values|);
    } else {
      r := CollectColumns(frame, names, ids);
    }
  }

  /** The loop `for _ in range(k): metadata.append(pd.Series([v for _ in range(n)]))`. */
  method ConstantSeries(v: Value, n: nat, k: nat) returns (r: seq<seq<Value>>)
    ensures r == ConstantColumns(v, n, k)
  {
    var cols: seq<seq<Value>> := [];
    var i := 0;
    while i < k
      invariant 0 <= i <= k
      invariant cols == ConstantColumns(v, n, i)
    {
      cols := cols + [seq(n, _ => v)];
      i := i + 1;
    }
    r := cols;
  }
}
