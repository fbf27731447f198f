/** Opaque stand-ins for the values the core only passes around: schemas,
    expressions, partitions, blocks and scalar values. Their contents belong
    to collaborators and are not part of this model. */
module DataValues {

  import opened Wrappers

  /** A column list; only its identity matters to the core. */
  datatype Schema = Schema(columns: seq<string>)

  /** An expression handle (projection item, predicate, aggregate call). */
  datatype Expr = Expr(id: nat)

  /** One independently readable piece of a table. */
  datatype Partition = Partition(name: string, version: nat)

  /** Row and byte counts reported by a data source. */
  datatype Statistics = Statistics(readRows: nat, readBytes: nat)

  /** A batch of rows flowing through a processor. */
  datatype DataBlock = DataBlock(schema: Schema, numRows: nat)

  datatype DataType = NullType | BooleanType | Int64Type | UInt64Type | Float64Type | Utf8Type

  /** A typed scalar; `payload == None` is the typed null (e.g. `Int64(None)`). */
  datatype DataValue = DataValue(dataType: DataType, payload: Option<nat>)

  function DataTypeOf(v: DataValue): DataType {
    v.dataType
  }

  predicate IsNull(v: DataValue) {
    v.dataType == NullType || v.payload.None?
  }

  /** The result of evaluating a function over a block. */
  datatype ColumnarValue = Array(values: seq<DataValue>) | Scalar(value: DataValue)
}
