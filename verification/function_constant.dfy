/** `ConstantFunction` (src/functions/function_constant.rs): a function that
    evaluates to one stored value and whose aggregate state never changes.
    The `&mut self` operations return the new state. */
module FunctionConstant {

  import opened Wrappers
  import opened DataValues

  datatype ConstantFunction = ConstantFunction(value: DataValue)

  /** The `Function` enum, of which only the constant variant is modelled. */
  datatype Function = Constant(constant: ConstantFunction)

  /** Creation never fails and keeps the value as given. */
  function TryCreate(value: DataValue): (r: Result<Function, QueryError>)
    ensures r.Success? && r.value.constant.value == value
  {
    Success(Constant(ConstantFunction(value)))
  }

  /** The type of the stored value, whatever the input schema. */
  function ReturnType(f: ConstantFunction, inputSchema: Schema): (r: Result<DataType, QueryError>)
    ensures r.Success? && r.value == DataTypeOf(f.value)
  {
    Success(DataTypeOf(f.value))
  }

  /** Whether the stored value is null, whatever the input schema. */
  function Nullable(f: ConstantFunction, inputSchema: Schema): (r: Result<bool, QueryError>)
    ensures r.Success? && (r.value <==> IsNull(f.value))
  {
    Success(IsNull(f.value))
  }

  /** The stored value as a scalar, for every block. */
  function Eval(f: ConstantFunction, block: DataBlock): (r: Result<ColumnarValue, QueryError>)
    ensures r.Success? && r.value.Scalar? && r.value.value == f.value
  {
    Success(Scalar(f.value))
  }

  function SetDepth(f: ConstantFunction, depth: nat): ConstantFunction {
    f
  }

  function Accumulate(f: ConstantFunction, block: DataBlock): Result<ConstantFunction, QueryError> {
    Success(f)
  }

  function Merge(f: ConstantFunction, states: seq<DataValue>): Result<ConstantFunction, QueryError> {
    Success(f)
  }

  /** The partial state: the stored value alone. */
  function AccumulateResult(f: ConstantFunction): (r: Result<seq<DataValue>, QueryError>)
    ensures r.Success? && r.value == [f.value]
  {
    Success([f.value])
  }

  /** The final result: the stored value. */
  function MergeResult(f: ConstantFunction): (r: Result<DataValue, QueryError>)
    ensures r.Success? && r.value == f.value
  {
    Success(f.value)
  }

  /** The state-changing calls an aggregate driver can make. */
  datatype Call = SetDepthCall(depth: nat) | AccumulateCall(block: DataBlock) | MergeCall(states: seq<DataValue>)

  function Apply(f: ConstantFunction, c: Call): Result<ConstantFunction, QueryError> {
    match c
    case SetDepthCall(depth) => Success(SetDepth(f, depth))
    case AccumulateCall(block) => Accumulate(f, block)
    case MergeCall(states) => Merge(f, states)
  }

  /** A sequence of calls, stopping at the first failure. */
  function Run(f: ConstantFunction, calls: seq<Call>): Result<ConstantFunction, QueryError>
    decreases |calls|
  {
    if calls == [] then Success(f)
    else
      var f' :- Apply(f, calls[0]);
      Run(f', calls[1..])
  }

  /** No sequence of `set_depth`, `accumulate` and `merge` calls fails or
      changes the state. */
  lemma {:induction false} StateNeverChanges(f: ConstantFunction, calls: seq<Call>)
    ensures Run(f, calls) == Success(f)
    decreases |calls|
  {
    if calls != [] {
      StateNeverChanges(f, calls[1..]);
    }
  }

  /** Calls are idempotent: repeating any sequence of them changes nothing
      more than running it once. */
  lemma {:induction false} Idempotent(f: ConstantFunction, calls: seq<Call>)
    ensures Run(f, calls + calls) == Run(f, calls)
  {
    StateNeverChanges(f, calls + calls);
    StateNeverChanges(f, calls);
  }

  /** Whatever calls came before, a created constant still reports the type
      and nullability of, evaluates to, and aggregates to, the value it was
      created with. */
  lemma {:induction false} ResultsIgnoreHistory(value: DataValue, calls: seq<Call>, block: DataBlock, s: Schema)
    ensures var f := TryCreate(value).value.constant;
      && Run(f, calls).Success?
      && ReturnType(Run(f, calls).value, s) == Success(DataTypeOf(value))
      && Nullable(Run(f, calls).value, s) == Success(IsNull(value))
      && AccumulateResult(Run(f, calls).value) == Success([value])
      && MergeResult(Run(f, calls).value) == Success(value)
      && Eval(Run(f, calls).value, block) == Success(Scalar(value))
  {
    StateNeverChanges(TryCreate(value).value.constant, calls);
  }

  /** The queries agree with one another: the partial aggregate state is
      exactly the final result, evaluation yields that result as a scalar,
      and the reported type and nullability are those of that result. */
  lemma ResultsAgree(f: ConstantFunction, block: DataBlock, s: Schema)
    ensures MergeResult(f).Success?
    ensures AccumulateResult(f) == Success([MergeResult(f).value])
    ensures Eval(f, block) == Success(Scalar(MergeResult(f).value))
    ensures ReturnType(f, s) == Success(DataTypeOf(MergeResult(f).value))
    ensures Nullable(f, s) == Success(IsNull(MergeResult(f).value))
  {
  }

  /** Evaluation ignores its block, and the type and nullability ignore the
      input schema. */
  lemma IgnoresInput(f: ConstantFunction, b1: DataBlock, b2: DataBlock, s1: Schema, s2: Schema)
    ensures Eval(f, b1) == Eval(f, b2)
    ensures ReturnType(f, s1) == ReturnType(f, s2)
    ensures Nullable(f, s1) == Nullable(f, s2)
  {
  }
}
