/** `apr_dbd_type_e` and the two tables that pick one for an attribute:
    `Attribute.aprTypeForExternalType` and `Attribute.aprTypeForValueType`. */
module AprTypes {
  import opened Wrappers
  import opened ZeeQL
  import opened Text

  /** The `apr_dbd_type_e` enumeration, `APR_DBD_TYPE_NONE` to `APR_DBD_TYPE_NULL`. */
  datatype AprType =
    | DbdNone
    | DbdTiny | DbdUTiny | DbdShort | DbdUShort | DbdInt | DbdUInt
    | DbdLong | DbdULong | DbdLongLong | DbdULongLong
    | DbdFloat | DbdDouble
    | DbdString | DbdText
    | DbdTime | DbdDate | DbdDateTime | DbdTimestamp | DbdZTimestamp
    | DbdBlob | DbdClob
    | DbdNull

  predicate IsTemporal(t: AprType) {
    t.DbdTime? || t.DbdDate? || t.DbdDateTime? || t.DbdTimestamp? || t.DbdZTimestamp?
  }

  predicate IsLob(t: AprType) {
    t.DbdBlob? || t.DbdClob?
  }

  /** The Swift integer type a typed integer accessor fills (`CInt` for INT, `CLong` for LONG, ...). */
  function IntTypeOf(t: AprType): Option<IntType> {
    match t
    case DbdTiny => Some(Int8)
    case DbdUTiny => Some(UInt8)
    case DbdShort => Some(Int16)
    case DbdUShort => Some(UInt16)
    case DbdInt => Some(Int32)
    case DbdUInt => Some(UInt32)
    case DbdLong => Some(Int)
    case DbdULong => Some(UInt)
    case DbdLongLong => Some(Int64)
    case DbdULongLong => Some(UInt64)
    case _ => None
  }

  function FloatTypeOf(t: AprType): Option<FloatType> {
    match t
    case DbdFloat => Some(Float)
    case DbdDouble => Some(Double)
    case _ => None
  }

  /** The `apr_dbd` format token for each type, as listed in apr_dbd.h. */
  function PlaceholderFor(t: AprType): Option<string> {
    match t
    case DbdNone => None
    case DbdTiny => Some("%hhd")
    case DbdUTiny => Some("%hhu")
    case DbdShort => Some("%hd")
    case DbdUShort => Some("%hu")
    case DbdInt => Some("%d")
    case DbdUInt => Some("%u")
    case DbdLong => Some("%ld")
    case DbdULong => Some("%lu")
    case DbdLongLong => Some("%lld")
    case DbdULongLong => Some("%llu")
    case DbdFloat => Some("%f")
    case DbdDouble => Some("%lf")
    case DbdString => Some("%s")
    case DbdText => Some("%pDt")
    case DbdTime => Some("%pDi")
    case DbdDate => Some("%pDd")
    case DbdDateTime => Some("%pDa")
    case DbdTimestamp => Some("%pDs")
    case DbdZTimestamp => Some("%pDz")
    case DbdBlob => Some("%pDb")
    case DbdClob => Some("%pDc")
    case DbdNull => Some("%pDn")
  }

  /** The ordered prefix table over an already upper-cased type name. */
  function ExternalTypeTable(u: string): Option<AprType> {
    if "VARCHAR" <= u then Some(DbdString)
    else if "INT" <= u then Some(DbdInt)
    else if "DOUBLE" <= u then Some(DbdDouble)
    else if "FLOAT" <= u then Some(DbdFloat)
    else if "TEXT" <= u then Some(DbdText)
    else if "TIMESTAMP WITH" <= u then Some(DbdZTimestamp)
    else if "TIMESTAMP" <= u then Some(DbdTimestamp)
    else if "DATETIME" <= u then Some(DbdDateTime)
    else if "TIME" <= u then Some(DbdTime)
    else if "DATE" <= u then Some(DbdDate)
    else if "BLOB" <= u then Some(DbdBlob)
    else if "CLOB" <= u then Some(DbdClob)
    else None
  }

  /** `aprTypeForExternalType`: the upper-cased external type looked up in the prefix table. */
  function TypeForExternalType(a: Attribute): Option<AprType> {
    match a.externalType
    case None => None
    case Some(t) => ExternalTypeTable(Upper(t))
  }

  /** The apr type of a Swift type that conforms to `APRAttributeValue`, if it does. */
  function AprTypeOfValueType(v: ValueType): Option<AprType> {
    match v
    case StringType => Some(DbdString)
    case IntegerType(Int32) => Some(DbdInt)
    case IntegerType(UInt32) => Some(DbdUInt)
    case IntegerType(Int8) => Some(DbdTiny)
    case IntegerType(UInt8) => Some(DbdUTiny)
    case IntegerType(Int16) => Some(DbdShort)
    case IntegerType(UInt16) => Some(DbdUShort)
    case IntegerType(Int) => Some(DbdLong)
    case IntegerType(UInt) => Some(DbdULong)
    case IntegerType(Int64) => Some(DbdLongLong)
    case IntegerType(UInt64) => Some(DbdULongLong)
    case FloatingType(Double) => Some(DbdDouble)
    case FloatingType(Float) => Some(DbdFloat)
    case DateType => None
    case OtherType(_) => None
  }

  /** `aprTypeForValueType`. */
  function TypeForValueType(a: Attribute): Option<AprType> {
    match a.valueType
    case None => None
    case Some(v) => AprTypeOfValueType(v)
  }

  /** An attribute with an integer or floating-point value type is decoded by the accessor
      that fills exactly that Swift type. */
  lemma ValueTypeRoundTrip(v: ValueType)
    ensures v.IntegerType? ==> AprTypeOfValueType(v).Some? && IntTypeOf(AprTypeOfValueType(v).value) == Some(v.itype)
    ensures v.FloatingType? ==> AprTypeOfValueType(v).Some? && FloatTypeOf(AprTypeOfValueType(v).value) == Some(v.ftype)
    ensures v == StringType <==> AprTypeOfValueType(v) == Some(DbdString)
    ensures AprTypeOfValueType(v).None? <==> v.DateType? || v.OtherType?
  {
  }

  /** The value-type table never names a temporal, large-object, NULL or NONE type. */
  lemma ValueTypeNeverTemporal(a: Attribute)
    ensures TypeForValueType(a).Some? ==>
      var t := TypeForValueType(a).value;
      IntTypeOf(t).Some? || FloatTypeOf(t).Some? || t == DbdString
  {
  }

  /** A string that starts with `p` agrees with `p` at every position of `p`. */
  lemma PrefixAt(u: string, p: string, i: nat)
    requires p <= u && i < |p|
    ensures u[i] == p[i]
  {
  }

  /** Two names that differ at position `i` cannot both start `u`. */
  lemma Exclusive(u: string, p: string, q: string, i: nat)
    requires p <= u && i < |p| && i < |q| && p[i] != q[i]
    ensures !(q <= u)
  {
    if q <= u {
      PrefixAt(u, p, i);
      PrefixAt(u, q, i);
    }
  }

  /** The ordering rules of the external-type table: longer names before their prefixes. */
  lemma ExternalTypeOrder(u: string)
    ensures "DATETIME" <= u ==> ExternalTypeTable(u) == Some(DbdDateTime)
    ensures "TIMESTAMP WITH" <= u ==> ExternalTypeTable(u) == Some(DbdZTimestamp)
    ensures "TIMESTAMP" <= u && !("TIMESTAMP WITH" <= u) ==> ExternalTypeTable(u) == Some(DbdTimestamp)
    ensures "TIME" <= u && !("TIMESTAMP" <= u) ==> ExternalTypeTable(u) == Some(DbdTime)
    ensures "DATE" <= u && !("DATETIME" <= u) ==> ExternalTypeTable(u) == Some(DbdDate)
    ensures "INT" <= u ==> ExternalTypeTable(u) == Some(DbdInt)
  {
    if "DATE" <= u {
      DateOrder(u);
    }
    if "TIMESTAMP" <= u {
      assert u[..4] == "TIMESTAMP"[..4];
    }
    if "TIME" <= u {
      TimeOrder(u);
    }
    if "INT" <= u {
      Exclusive(u, "INT", "VARCHAR", 0);
    }
    if "DATETIME" <= u {
      assert u[..4] == "DATETIME"[..4];
    }
  }

  /** The table on names starting with DATE: DATETIME before DATE. */
  lemma DateOrder(u: string)
    requires "DATE" <= u
    ensures "DATETIME" <= u ==> ExternalTypeTable(u) == Some(DbdDateTime)
    ensures !("DATETIME" <= u) ==> ExternalTypeTable(u) == Some(DbdDate)
  {
    Exclusive(u, "DATE", "VARCHAR", 0);
    Exclusive(u, "DATE", "INT", 0);
    Exclusive(u, "DATE", "DOUBLE", 1);
    Exclusive(u, "DATE", "FLOAT", 0);
    Exclusive(u, "DATE", "TEXT", 0);
    Exclusive(u, "DATE", "TIMESTAMP WITH", 0);
    Exclusive(u, "DATE", "TIMESTAMP", 0);
    Exclusive(u, "DATE", "TIME", 0);
  }

  /** The table on names starting with TIME: TIMESTAMP WITH before TIMESTAMP before TIME. */
  lemma TimeOrder(u: string)
    requires "TIME" <= u
    ensures "TIMESTAMP WITH" <= u ==> ExternalTypeTable(u) == Some(DbdZTimestamp)
    ensures "TIMESTAMP" <= u && !("TIMESTAMP WITH" <= u) ==> ExternalTypeTable(u) == Some(DbdTimestamp)
    ensures !("TIMESTAMP" <= u) ==> ExternalTypeTable(u) == Some(DbdTime)
  {
    Exclusive(u, "TIME", "VARCHAR", 0);
    Exclusive(u, "TIME", "INT", 0);
    Exclusive(u, "TIME", "DOUBLE", 0);
    Exclusive(u, "TIME", "FLOAT", 0);
    Exclusive(u, "TIME", "TEXT", 1);
    Exclusive(u, "TIME", "DATE", 0);
  }

  /** Examples from the source's entities: `INTEGER`, `VARCHAR(255)`, and so on. */
  lemma ExternalTypeExamples()
    ensures ExternalTypeTable("INTEGER") == Some(DbdInt)
    ensures ExternalTypeTable("VARCHAR(255)") == Some(DbdString)
    ensures ExternalTypeTable("TIMESTAMP WITH TIME ZONE") == Some(DbdZTimestamp)
    ensures ExternalTypeTable("DATETIME") == Some(DbdDateTime)
    ensures ExternalTypeTable("BOOLEAN").None?
    ensures TypeForExternalType(Attribute("id", None, Some("int"), None, None)) == Some(DbdInt)
    ensures TypeForExternalType(Attribute("b", None, None, Some(StringType), None)).None?
  {
    IntegerHits();
    ZonedTimestampHits();
    DateTimeHits();
    IntUpper();
    BooleanMisses();
  }

  lemma IntegerHits()
    ensures ExternalTypeTable("INTEGER") == Some(DbdInt)
  {
    assert "INTEGER"[..3] == "INT";
    ExternalTypeOrder("INTEGER");
  }

  lemma ZonedTimestampHits()
    ensures ExternalTypeTable("TIMESTAMP WITH TIME ZONE") == Some(DbdZTimestamp)
  {
    assert "TIMESTAMP WITH TIME ZONE"[..14] == "TIMESTAMP WITH";
    ExternalTypeOrder("TIMESTAMP WITH TIME ZONE");
  }

  lemma DateTimeHits()
    ensures ExternalTypeTable("DATETIME") == Some(DbdDateTime)
  {
    ExternalTypeOrder("DATETIME");
  }

  lemma IntUpper()
    ensures ExternalTypeTable(Upper("int")) == Some(DbdInt)
  {
    assert Upper("int") == "INT";
    ExternalTypeOrder("INT");
  }

  lemma BooleanMisses()
    ensures ExternalTypeTable("BOOLEAN").None?
  {
    var u := "BOOLEAN";
    if "VARCHAR" <= u { PrefixAt(u, "VARCHAR", 0); }
    if "INT" <= u { PrefixAt(u, "INT", 0); }
    if "DOUBLE" <= u { PrefixAt(u, "DOUBLE", 0); }
    if "FLOAT" <= u { PrefixAt(u, "FLOAT", 0); }
    if "TEXT" <= u { PrefixAt(u, "TEXT", 0); }
    if "TIME" <= u { PrefixAt(u, "TIME", 0); }
    if "DATE" <= u { PrefixAt(u, "DATE", 0); }
    if "BLOB" <= u { PrefixAt(u, "BLOB", 1); }
    if "CLOB" <= u { PrefixAt(u, "CLOB", 0); }
    ExternalTypeTableSound(u);
  }

  /** A table hit means the upper-cased type starts with the matched name (and a miss means it starts
      with none of the twelve names). */
  lemma ExternalTypeTableSound(u: string)
    ensures ExternalTypeTable(u).None? <==>
      !("VARCHAR" <= u || "INT" <= u || "DOUBLE" <= u || "FLOAT" <= u || "TEXT" <= u || "TIME" <= u ||
        "DATE" <= u || "BLOB" <= u || "CLOB" <= u)
  {
    if "TIMESTAMP" <= u || "TIMESTAMP WITH" <= u {
      assert "TIME" <= u;
    }
    if "DATETIME" <= u {
      assert "DATE" <= u;
    }
  }

  /** `VARCHAR(255)`, the name column of the source's test entities, maps to STRING. */
  lemma VarcharIsString(a: Attribute)
    requires a.externalType == Some("VARCHAR(255)")
    ensures TypeForExternalType(a) == Some(DbdString)
  {
    var u := a.externalType.value;
    assert "VARCHAR" <= u;
    UpperKeepsUpperPrefix("VARCHAR", u);
  }
}
