/** Values as the fusion engine sees them, the errors it raises, and the Result
    type that stands for a raised exception. */
module Values {

  /** A dynamically typed value: a data-frame cell, a column label, a record id,
      a static metadata constant or an extra argument of a strategy. */
  datatype Value =
    | Int(i: int)
    | Str(s: string)
    | List(items: seq<Value>)
    | Tuple(items: seq<Value>)

  /** `listify`: a list is kept as it is, any other value becomes a one-element list. */
  function Listify(v: Value): seq<Value>
  {
    if v.List? then v.items else [v]
  }

  datatype Option<+T> = None | Some(value: T)

  /** The exceptions raised while aligning a job or concatenating the fused columns. */
  datatype Error =
    | DfANone                    // AssertionError: no table A was given to `fuse`
    | DfBNone                    // AssertionError: no table B was given to `fuse`
    | TransformValsNotCallable   // ValueError
    | TransformMetaNotCallable   // ValueError
    | OneSidedMetadata           // AssertionError: metadata for one table only
    | MissingColumn(name: Value) // KeyError: no column with this label
    | MissingRecords             // KeyError: a pair refers to an id the table does not hold
    | IndexOutOfRange            // IndexError: the first column of an empty column list
    | NoObjectsToConcatenate     // ValueError from concatenating zero columns
  {
    /** Raised by the checks that run before any table is read. */
    predicate IsConfigurationError()
    {
      DfANone? || DfBNone? || TransformValsNotCallable? || TransformMetaNotCallable? || OneSidedMetadata?
    }

    /** Raised while reading columns out of a table. */
    predicate IsLookupError()
    {
      MissingColumn? || MissingRecords? || IndexOutOfRange?
    }
  }

  datatype Result<+T> = Success(value: T) | Failure(error: Error) {
    predicate IsFailure()
    {
      Failure?
    }

    function PropagateFailure<U>(): Result<U>
      requires Failure?
    {
      Failure(error)
    }

    function Extract(): T
      requires Success?
    {
      value
    }
  }

  /** Runs the steps in order: every value when all steps succeed, otherwise
      the error of a failing step (the first one, see CollectStopsAtFirstFailure). */
  function Collect<T>(steps: seq<Result<T>>): (r: Result<seq<T>>)
    ensures r.Success? <==> forall j :: 0 <= j < |steps| ==> steps[j].Success?
    ensures r.Success? ==> |r.value| == |steps|
    ensures r.Success? ==> forall j :: 0 <= j < |steps| ==> r.value[j] == steps[j].value
    ensures r.Failure? ==> exists j :: 0 <= j < |steps| && steps[j] == Failure(r.error)
    decreases |steps|
  {
    if steps == [] then Success([])
    else
      var init := steps[..|steps| - 1];
      assert forall k :: 0 <= k < |init| ==> init[k] == steps[k];
      var values :- Collect(init);
      var last :- steps[|steps| - 1];
      Success(values + [last])
  }

  /** The steps run in order and stop at the first failure: if every step before
      `i` succeeds and step `i` fails, the collection fails with step `i`'s error. */
  lemma {:induction false} CollectStopsAtFirstFailure<T>(steps: seq<Result<T>>, i: nat)
    requires i < |steps|
    requires Collect(steps[..i]).Success?
    requires steps[i].Failure?
    ensures Collect(steps) == Failure(steps[i].error)
    decreases |steps|
  {
    var init := steps[..|steps| - 1];
    if i == |steps| - 1 {
      assert init == steps[..i];
    } else {
      assert init[..i] == steps[..i];
      assert init[i] == steps[i];
      CollectStopsAtFirstFailure(init, i);
    }
  }

  /** Extending a successful prefix by one successful step appends its value. */
  lemma CollectExtend<T>(steps: seq<Result<T>>, i: nat, values: seq<T>)
    requires i < |steps|
    requires Collect(steps[..i]) == Success(values)
    requires steps[i].Success?
    ensures Collect(steps[..i + 1]) == Success(values + [steps[i].value])
  {
    assert steps[..i + 1][..i] == steps[..i];
  }

  function Min(x: nat, y: nat): nat
  {
    if x <= y then x else y
  }

  function Max(x: nat, y: nat): nat
  {
    if x <= y then y else x
  }
}
