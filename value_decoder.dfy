/** Cell decoding (`APRAdaptorChannel.valueIn` and `aprRawGet`): a type hint taken from the
    attribute selects a typed accessor; `APR_ENOENT` is SQL NULL; anything without a handled hint
    is read through the string accessor and then `apr_dbd_get_entry`. */
module ValueDecoder {
  import opened Wrappers
  import opened ZeeQL
  import opened AprTypes
  import opened Dbd

  /** The hint for an attribute: its external type first, else its value type. */
  function Hint(attr: Option<Attribute>): (h: Option<AprType>)
    ensures attr.None? ==> h.None?
    ensures attr.Some? && TypeForExternalType(attr.value).Some? ==> h == TypeForExternalType(attr.value)
    ensures attr.Some? && TypeForExternalType(attr.value).None? ==> h == TypeForValueType(attr.value)
  {
    match attr
    case None => None
    case Some(a) =>
      match TypeForExternalType(a)
      case Some(t) => Some(t)
      case None => TypeForValueType(a)
  }

  /** Whether `valueIn` has a case of its own for the hint (the others fall through to strings). */
  predicate Handled(t: AprType) {
    t.DbdNull? || IntTypeOf(t).Some? || FloatTypeOf(t).Some? || t.DbdString? || t.DbdText?
  }

  /** The accessor `valueIn` consults first, or None when it consults none (the NULL hint). */
  function AccessorFor(attr: Option<Attribute>): Option<AprType> {
    var h := Hint(attr);
    if h.Some? && h.value != DbdNone && Handled(h.value) then
      if h.value.DbdNull? then None else h
    else Some(DbdString)
  }

  /** `aprRawGet` into an integer buffer of type `t`: nil on `APR_ENOENT`, else what the buffer holds. */
  function RawGetInteger(d: Datum, t: IntType): (r: Option<Value>)
    ensures r.None? <==> d.status == APR_ENOENT
    ensures r.Some? ==> r.value.Integer? && r.value.itype == t && InRange(t, r.value.n)
  {
    if d.status == APR_ENOENT then None
    else
      var raw := match d.buffer case Number(n) => n case _ => 0;
      Some(Integer(t, Wrap(t, raw)))
  }

  /** The DOUBLE and FLOAT cases: the same rule over an opaque floating-point buffer. */
  function RawGetReal(d: Datum, f: FloatType): (r: Option<Value>)
    ensures r.None? <==> d.status == APR_ENOENT
    ensures r.Some? ==> r.value.Real? && r.value.ftype == f
  {
    if d.status == APR_ENOENT then None
    else
      var desc := match d.buffer case Floating(x) => x case _ => "0.0";
      Some(Real(f, desc))
  }

  /** The STRING and TEXT cases: nil on `APR_ENOENT` or a null C string. */
  function GetString(d: Datum): (r: Option<Value>)
    ensures d.status == APR_ENOENT ==> r.None?
    ensures r.Some? <==> d.status != APR_ENOENT && d.buffer.CString? && d.buffer.p.Some?
    ensures r.Some? ==> r.value == Str(d.buffer.p.value)
  {
    if d.status == APR_ENOENT then None
    else
      match d.buffer
      case CString(Some(s)) => Some(Str(s))
      case _ => None
  }

  /** The code after the switch: the string accessor, and `apr_dbd_get_entry` when that does not
      report success with a string. */
  function StringFallback(cell: Cell): (r: Option<Value>)
    ensures cell.datum(DbdString).status == APR_ENOENT ==> r.None?
    ensures r.Some? ==> r.value.Str?
    ensures var d := cell.datum(DbdString);
      d.status == APR_SUCCESS && d.buffer.CString? && d.buffer.p.Some? ==> r == Some(Str(d.buffer.p.value))
    ensures var d := cell.datum(DbdString);
      d.status != APR_ENOENT && !(d.status == APR_SUCCESS && d.buffer.CString? && d.buffer.p.Some?) ==>
        r == (if cell.entry.Some? then Some(Str(cell.entry.value)) else None)
  {
    var d := cell.datum(DbdString);
    if d.status == APR_ENOENT then None
    else if d.status == APR_SUCCESS && d.buffer.CString? && d.buffer.p.Some? then Some(Str(d.buffer.p.value))
    else
      match cell.entry
      case Some(e) => Some(Str(e))
      case None => None
  }

  /** `valueIn(row:column:attribute:)`. */
  function ValueIn(cell: Cell, attr: Option<Attribute>): (r: Option<Value>)
    ensures Hint(attr) == Some(DbdNull) ==> r.None?
    ensures AccessorFor(attr).Some? && cell.datum(AccessorFor(attr).value).status == APR_ENOENT ==> r.None?
    ensures r.Some? ==> r.value.Integer? || r.value.Real? || r.value.Str?
    ensures r.Some? && r.value.Integer? ==> InRange(r.value.itype, r.value.n)
  {
    var h := Hint(attr);
    if h.None? || h.value == DbdNone then StringFallback(cell)
    else
      var t := h.value;
      if t == DbdNull then None
      else if t == DbdString || t == DbdText then GetString(cell.datum(t))
      else if IntTypeOf(t).Some? then RawGetInteger(cell.datum(t), IntTypeOf(t).value)
      else if FloatTypeOf(t).Some? then RawGetReal(cell.datum(t), FloatTypeOf(t).value)
      else StringFallback(cell)  // temporal, large-object and any other type: not converted
  }

  /** The external type wins over the value type whenever it maps to something. */
  lemma ExternalTypeTakesPrecedence(a: Attribute, v: ValueType)
    requires TypeForExternalType(a).Some?
    ensures Hint(Some(a.(valueType := Some(v)))) == TypeForExternalType(a)
  {
  }

  /** No hint, the NONE hint, a temporal or a large-object hint: the cell is read exactly as if
      no attribute had been given. */
  lemma UnhandledHintsFallBack(cell: Cell, attr: Option<Attribute>)
    requires Hint(attr).None? || Hint(attr) == Some(DbdNone) || IsTemporal(Hint(attr).value) || IsLob(Hint(attr).value)
    ensures ValueIn(cell, attr) == ValueIn(cell, None) == StringFallback(cell)
  {
    var h := Hint(attr);
    if h.Some? && h.value != DbdNone {
      Unconverted(h.value);
    }
  }

  /** Temporal and large-object types have no typed case in `valueIn`. */
  lemma Unconverted(t: AprType)
    requires IsTemporal(t) || IsLob(t)
    ensures t != DbdNull && t != DbdString && t != DbdText && IntTypeOf(t).None? && FloatTypeOf(t).None?
  {
  }

  /** A NULL cell, where every accessor reports `APR_ENOENT`, decodes to nil whatever the
      attribute says: never to a zero value of the declared type. */
  lemma NullCellIsNil(cell: Cell, attr: Option<Attribute>)
    requires forall t :: cell.datum(t).status == APR_ENOENT
    ensures ValueIn(cell, attr).None?
  {
  }

  /** With an integer hint and a value present, the result is that value in the width of the
      Swift type the accessor fills. */
  lemma IntegerDecoding(cell: Cell, attr: Option<Attribute>, n: int)
    requires Hint(attr).Some? && IntTypeOf(Hint(attr).value).Some?
    requires cell.datum(Hint(attr).value) == Datum(APR_SUCCESS, Number(n))
    ensures ValueIn(cell, attr) == Some(Integer(IntTypeOf(Hint(attr).value).value, Wrap(IntTypeOf(Hint(attr).value).value, n)))
  {
    var t := Hint(attr).value;
    assert t != DbdNone && t != DbdNull && t != DbdString && t != DbdText;
    assert ValueIn(cell, attr) == RawGetInteger(cell.datum(t), IntTypeOf(t).value);
  }

  /** A column read without an attribute (every column of `querySQL(sql, nil)`) gives the string the
      STRING accessor reports with success. */
  lemma NoAttributeReadsString(cell: Cell, s: string)
    requires cell.datum(DbdString) == Datum(APR_SUCCESS, CString(Some(s)))
    ensures ValueIn(cell, None) == Some(Str(s))
  {
  }

  /** A column read without an attribute whose STRING accessor neither reports NULL nor succeeds
      with a string gives `apr_dbd_get_entry`'s text, or nil when there is none. */
  lemma NoAttributeFallsBackToEntry(cell: Cell)
    requires var d := cell.datum(DbdString);
      d.status != APR_ENOENT && !(d.status == APR_SUCCESS && d.buffer.CString? && d.buffer.p.Some?)
    ensures ValueIn(cell, None) == (if cell.entry.Some? then Some(Str(cell.entry.value)) else None)
  {
  }

  /** The final fallback returns what `apr_dbd_get_entry` returns whenever the string accessor
      neither reports NULL nor succeeds; with the PostgreSQL driver that is "" for a NULL column. */
  lemma EntryFallbackQuirk(cell: Cell)
    requires cell.datum(DbdString).status != APR_ENOENT && cell.datum(DbdString).status != APR_SUCCESS
    requires cell.entry == Some("")
    ensures ValueIn(cell, None) == Some(Str(""))
  {
    NoAttributeFallsBackToEntry(cell);
  }

  /** An attribute declared `VARCHAR(255)`, as in the source's test entity, reads its column through
      the STRING accessor. */
  lemma VarcharReadsString(cell: Cell, a: Attribute, s: string)
    requires a.externalType == Some("VARCHAR(255)")
    requires cell.datum(DbdString) == Datum(APR_SUCCESS, CString(Some(s)))
    ensures ValueIn(cell, Some(a)) == Some(Str(s))
  {
    VarcharHint(a);
    StringHintReadsString(cell, Some(a));
  }

  /** The STRING hint reads through the string accessor. */
  lemma StringHintReadsString(cell: Cell, attr: Option<Attribute>)
    requires Hint(attr) == Some(DbdString)
    ensures ValueIn(cell, attr) == GetString(cell.datum(DbdString))
  {
  }

  lemma VarcharHint(a: Attribute)
    requires a.externalType == Some("VARCHAR(255)")
    ensures Hint(Some(a)) == Some(DbdString)
  {
    VarcharIsString(a);
  }
}
