/** The parts of ZeeQL's object model that the adaptor reads and produces:
    attributes, entities, runtime values, adaptor rows and the errors it throws. */
module ZeeQL {
  import opened Wrappers

  /** Swift's fixed-width integer types, 64-bit platform (`CLong` is `Int`, `CLongLong` is `Int64`). */
  datatype IntType = Int8 | UInt8 | Int16 | UInt16 | Int32 | UInt32 | Int | UInt | Int64 | UInt64

  datatype FloatType = Float | Double

  function MinOf(t: IntType): int {
    match t
    case Int8 => -0x80
    case Int16 => -0x8000
    case Int32 => -0x8000_0000
    case Int | Int64 => -0x8000_0000_0000_0000
    case _ => 0
  }

  function MaxOf(t: IntType): int {
    match t
    case Int8 => 0x7F
    case UInt8 => 0xFF
    case Int16 => 0x7FFF
    case UInt16 => 0xFFFF
    case Int32 => 0x7FFF_FFFF
    case UInt32 => 0xFFFF_FFFF
    case Int | Int64 => 0x7FFF_FFFF_FFFF_FFFF
    case UInt | UInt64 => 0xFFFF_FFFF_FFFF_FFFF
  }

  predicate InRange(t: IntType, n: int) {
    MinOf(t) <= n <= MaxOf(t)
  }

  /** Two's-complement reading of an integer in the width of `t`: what a C buffer of that type holds. */
  function Wrap(t: IntType, n: int): (w: int)
    ensures InRange(t, w)
    ensures InRange(t, n) ==> w == n
    ensures (w - n) % (MaxOf(t) - MinOf(t) + 1) == 0
  {
    var m := MaxOf(t) - MinOf(t) + 1;
    var r := MinOf(t) + (n - MinOf(t)) % m;
    assert (r - n) % m == 0 by {
      assert r - n == -((n - MinOf(t)) / m) * m;
    }
    r
  }

  /** The runtime values the adaptor handles, a closed sum in place of Swift's `Any`.
      Floating-point and temporal values are opaque: only their `description` is kept. */
  datatype Value =
    | Integer(itype: IntType, n: int)
    | Real(ftype: FloatType, description: string)
    | Str(s: string)
    | Date(description: string)
    | GlobalId(id: int)                  // SingleIntKeyGlobalID
    | QualifierVariable(key: string, description: string)
    | Other(description: string)

  /** The Swift type an attribute declares for its values (`Attribute.valueType`). */
  datatype ValueType =
    | IntegerType(itype: IntType)
    | FloatingType(ftype: FloatType)
    | StringType
    | DateType
    | OtherType(name: string)

  datatype Attribute = Attribute(
    name: string,
    columnName: Option<string>,
    externalType: Option<string>,
    valueType: Option<ValueType>,
    isAutoIncrement: Option<bool>)

  datatype Entity = Entity(
    name: string,
    externalName: Option<string>,
    attributes: seq<Attribute>,
    primaryKeyAttributeNames: Option<seq<string>>)

  /** An adaptor row: column or attribute name to optional value. */
  type Row = map<string, Option<Value>>

  /** `Entity.attributesWithNames`: the attributes named; unknown names are skipped. */
  function AttributesWithNames(attrs: seq<Attribute>, names: seq<string>): (r: seq<Attribute>)
    ensures |r| <= |names|
    ensures forall i :: 0 <= i < |r| ==> r[i] in attrs && r[i].name in names
    ensures forall n :: n in names && AttributeNamed(attrs, n).Some? ==> AttributeNamed(attrs, n).value in r
  {
    if names == [] then []
    else
      var rest := AttributesWithNames(attrs, names[1..]);
      match AttributeNamed(attrs, names[0])
      case Some(a) => [a] + rest
      case None => rest
  }

  /** The first attribute with the given name. */
  function AttributeNamed(attrs: seq<Attribute>, name: string): (r: Option<Attribute>)
    ensures r.Some? ==> r.value in attrs && r.value.name == name
    ensures r.None? ==> forall a :: a in attrs ==> a.name != name
  {
    if attrs == [] then None
    else if attrs[0].name == name then Some(attrs[0])
    else AttributeNamed(attrs[1..], name)
  }

  /** Why `primaryOpenChannel` of the request adaptor could not open a channel. */
  datatype OpenFailure =
    | MissingAcquireModDBDNotAvailable
    | CouldNotAquire
    | RequestHasNoPool
    | ConnectionHasNoHandle
    | ConnectionHasNoDriver

  /** Everything the adaptor throws, with the Swift error enums merged into one datatype.
      `AdaptorChannelError.NotImplemented` and `AdaptorError.NotImplemented` are kept apart as
      `ChannelNotImplemented` and `AdaptorNotImplemented`. `CallbackError` stands for an error raised
      by a caller's callback. */
  datatype Error =
    | TransactionInProgress
    | APRError(code: int)
    | APRDBDError(code: int, message: Option<string>)
    | QueryFailed(sql: string, cause: Error)
    | OperationDidNotAffectOne
    | FailedToGrabNewPrimaryKey(entity: Entity, row: Row)
    | FailedToRefetchInsertedRow(refetchEntity: Option<Entity>, refetchRow: Row)
    | InsertRefetchRequiresEntity
    | CouldNotOpenChannel(reason: OpenFailure)
    | ChannelNotImplemented(operation: string)
    | AdaptorNotImplemented(operation: string)
    | CallbackError(code: int)
}
