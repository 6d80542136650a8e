/** `APRSQLExpression` and its PostgreSQL subclass: bind variables with `apr_dbd` placeholders,
    statement text and binds built in lockstep, and INSERT ... RETURNING. */
module SQLExpression {
  import opened Wrappers
  import opened ZeeQL
  import opened Text
  import opened AprTypes
  import opened Upstream

  /** `SQLExpression.BindVariable`. */
  datatype BindVariable = BindVariable(name: string, placeholder: string, attribute: Option<Attribute>, value: Option<Value>)

  /** `aprBindPattern` on the external type itself: the ordered, case-sensitive prefix table. */
  function PatternTable(t: string): Option<string> {
    if "INT" <= t then Some("%d")
    else if "VARCHAR" <= t then Some("%s")
    else if "TEXT" <= t then Some("%pDt")
    else if "FLOAT" <= t then Some("%f")
    else if "DOUBLE" <= t then Some("%lf")
    else if "DATETIME" <= t then Some("%pDa")
    else if "DATE" <= t then Some("%pDd")
    else if "TIMESTAMP WITH" <= t then Some("%pDz")
    else if "TIMESTAMP" <= t then Some("%pDs")
    else if "TIME" <= t then Some("%pDi")
    else if "BLOB" <= t then Some("%pDb")
    else if "CLOB" <= t then Some("%pDc")
    else None
  }

  /** `Attribute.aprBindPattern`: nothing without an external type. */
  function BindPattern(a: Attribute): Option<string> {
    match a.externalType
    case None => None
    case Some(t) => PatternTable(t)
  }

  /** The placeholder chosen for a value when the attribute gives no pattern. */
  function ValuePlaceholder(value: Option<Value>, unset: string): string {
    match value
    case None => "%pDn"
    case Some(v) =>
      if v.Integer? && v.itype == Int then "%d"
      else if v.Str? then "%s"
      else if v.Date? then "%pDs"
      else if v.GlobalId? then "%d"
      else unset
  }

  /** The name given to a bind, `count` being the number of binds the expression already holds. */
  function BindName(attribute: Option<Attribute>, value: Option<Value>, count: nat): string {
    if value.Some? && value.value.QualifierVariable? then value.value.key
    else if attribute.Some? then attribute.value.columnName.GetOr(attribute.value.name) + Decimal(count)
    else "NOATTR" + Decimal(count)
  }

  /** `bindVariableDictionary(for:value:)`. */
  function BindVariableFor(attribute: Option<Attribute>, value: Option<Value>, count: nat, unset: string): (b: BindVariable)
    ensures b.attribute == attribute && b.value == value
    ensures attribute.Some? && BindPattern(attribute.value).Some? ==> b.placeholder == BindPattern(attribute.value).value
  {
    var placeholder :=
      if attribute.Some? && BindPattern(attribute.value).Some? then BindPattern(attribute.value).value
      else ValuePlaceholder(value, unset);
    BindVariable(BindName(attribute, value, count), placeholder, attribute, value)
  }

  /** The placeholder rules without a pattern: by value kind, `%pDn` for nil, the unset default otherwise. */
  lemma PlaceholderByValue(attribute: Option<Attribute>, value: Option<Value>, count: nat, unset: string)
    requires attribute.None? || BindPattern(attribute.value).None?
    ensures var p := BindVariableFor(attribute, value, count, unset).placeholder;
      && (value.None? ==> p == "%pDn")
      && (value.Some? && ((value.value.Integer? && value.value.itype == Int) || value.value.GlobalId?) ==> p == "%d")
      && (value.Some? && value.value.Str? ==> p == "%s")
      && (value.Some? && value.value.Date? ==> p == "%pDs")
      && (value.Some? && !value.value.Str? && !value.value.Date? && !value.value.GlobalId? &&
          !(value.value.Integer? && value.value.itype == Int)
          ==> p == unset)
  {
  }

  /** Bind names: a qualifier variable's key, else the column (or attribute) name and the count,
      else `NOATTR` and the count. Names built from the count are distinct for distinct counts. */
  lemma BindNaming(attribute: Option<Attribute>, value: Option<Value>, count: nat, other: nat)
    ensures value.Some? && value.value.QualifierVariable? ==> BindName(attribute, value, count) == value.value.key
    ensures !(value.Some? && value.value.QualifierVariable?) && attribute.None? ==>
      BindName(attribute, value, count) == "NOATTR" + Decimal(count)
    ensures !(value.Some? && value.value.QualifierVariable?) && attribute.Some? && attribute.value.columnName.Some? ==>
      BindName(attribute, value, count) == attribute.value.columnName.value + Decimal(count)
    ensures !(value.Some? && value.value.QualifierVariable?) && count != other ==>
      BindName(attribute, value, count) != BindName(attribute, value, other)
  {
    if !(value.Some? && value.value.QualifierVariable?) && count != other {
      var stem := if attribute.Some? then attribute.value.columnName.GetOr(attribute.value.name) else "NOATTR";
      DecimalInjective(count, other);
      PrefixCancel(stem, Decimal(count), Decimal(other));
    }
  }

  /** The pattern table and the external-type table of the decoder agree on every upper-case name:
      a bind's placeholder is the `apr_dbd` token of the type its column is read back with. */
  lemma PatternMatchesDecoderTable(u: string)
    ensures PatternTable(u) == (if ExternalTypeTable(u).Some? then PlaceholderFor(ExternalTypeTable(u).value) else None)
  {
    if |u| > 0 {
      if u[0] == 'D' {
        PatternAgreesOnD(u);
      } else if u[0] == 'T' {
        PatternAgreesOnT(u);
      } else {
        Heads(u);
      }
    }
  }

  /** The two tables on names starting with `D`: DOUBLE, DATETIME, DATE. */
  lemma PatternAgreesOnD(u: string)
    requires |u| > 0 && u[0] == 'D'
    ensures PatternTable(u) == (if ExternalTypeTable(u).Some? then PlaceholderFor(ExternalTypeTable(u).value) else None)
  {
    Heads(u);
    assert !("VARCHAR" <= u) && !("INT" <= u) && !("FLOAT" <= u) && !("TEXT" <= u) && !("TIME" <= u);
    assert !("BLOB" <= u) && !("CLOB" <= u);
  }

  /** The two tables on names starting with `T`: TEXT, TIMESTAMP WITH, TIMESTAMP, TIME. */
  lemma PatternAgreesOnT(u: string)
    requires |u| > 0 && u[0] == 'T'
    ensures PatternTable(u) == (if ExternalTypeTable(u).Some? then PlaceholderFor(ExternalTypeTable(u).value) else None)
  {
    Heads(u);
    assert !("VARCHAR" <= u) && !("INT" <= u) && !("FLOAT" <= u) && !("DOUBLE" <= u) && !("DATE" <= u);
    assert !("BLOB" <= u) && !("CLOB" <= u);
  }

  /** Which letters a string starts with when one of the table's names starts it. */
  lemma Heads(u: string)
    requires |u| > 0
    ensures "VARCHAR" <= u ==> u[0] == 'V'
    ensures "INT" <= u ==> u[0] == 'I'
    ensures "DOUBLE" <= u ==> u[0] == 'D' && u[1] == 'O'
    ensures "DATE" <= u ==> u[0] == 'D' && u[1] == 'A'
    ensures "DATETIME" <= u ==> "DATE" <= u
    ensures "FLOAT" <= u ==> u[0] == 'F'
    ensures "TEXT" <= u ==> u[0] == 'T' && u[1] == 'E'
    ensures "TIME" <= u ==> u[0] == 'T' && u[1] == 'I'
    ensures "TIMESTAMP" <= u ==> "TIME" <= u
    ensures "TIMESTAMP WITH" <= u ==> "TIMESTAMP" <= u
    ensures "BLOB" <= u ==> u[0] == 'B'
    ensures "CLOB" <= u ==> u[0] == 'C'
  {
    if "VARCHAR" <= u { PrefixAt(u, "VARCHAR", 0); }
    if "INT" <= u { PrefixAt(u, "INT", 0); }
    if "DOUBLE" <= u { PrefixAt(u, "DOUBLE", 0); PrefixAt(u, "DOUBLE", 1); }
    if "DATE" <= u { PrefixAt(u, "DATE", 0); PrefixAt(u, "DATE", 1); }
    if "FLOAT" <= u { PrefixAt(u, "FLOAT", 0); }
    if "TEXT" <= u { PrefixAt(u, "TEXT", 0); PrefixAt(u, "TEXT", 1); }
    if "TIME" <= u { PrefixAt(u, "TIME", 0); PrefixAt(u, "TIME", 1); }
    if "BLOB" <= u { PrefixAt(u, "BLOB", 0); }
    if "CLOB" <= u { PrefixAt(u, "CLOB", 0); }
  }

  // ---- statement text and binds in lockstep

  /** The statement text and the bind list after appending `parts` to an expression holding `binds`:
      each bound piece becomes one bind, numbered by the binds already held, and its placeholder is
      spliced into the text at the piece's position. */
  function Assemble(parts: seq<Part>, binds: seq<BindVariable>, unset: string): (r: (string, seq<BindVariable>))
    ensures |r.1| == |binds| + |BoundParts(parts)|
    ensures r.1[..|binds|] == binds
    decreases |parts|
  {
    if parts == [] then ("", binds)
    else
      match parts[0]
      case Literal(t) =>
        var rest := Assemble(parts[1..], binds, unset);
        (t + rest.0, rest.1)
      case Bound(a, v) =>
        var b := BindVariableFor(a, v, |binds|, unset);
        var rest := Assemble(parts[1..], binds + [b], unset);
        assert rest.1[..|binds|] == rest.1[..|binds| + 1][..|binds|];
        (b.placeholder + rest.0, rest.1)
  }

  /** The bound pieces of a statement, in order. */
  function BoundParts(parts: seq<Part>): (r: seq<Part>)
    ensures |r| <= |parts|
    ensures forall k :: 0 <= k < |r| ==> r[k].Bound?
  {
    if parts == [] then []
    else if parts[0].Bound? then [parts[0]] + BoundParts(parts[1..])
    else BoundParts(parts[1..])
  }

  function Placeholders(binds: seq<BindVariable>): (r: seq<string>)
    ensures |r| == |binds|
  {
    seq(|binds|, k requires 0 <= k < |binds| => binds[k].placeholder)
  }

  /** The text of a statement whose k-th bound piece is written as `placeholders[k]`. */
  function Render(parts: seq<Part>, placeholders: seq<string>): string
    requires |placeholders| == |BoundParts(parts)|
  {
    if parts == [] then ""
    else if parts[0].Literal? then parts[0].text + Render(parts[1..], placeholders)
    else placeholders[0] + Render(parts[1..], placeholders[1..])
  }

  /** Lockstep, binds: the n-th new bind is made from the n-th bound piece, with the number of
      binds before it as its count. */
  lemma {:induction false} AssembleBinds(parts: seq<Part>, binds: seq<BindVariable>, unset: string)
    ensures var r := Assemble(parts, binds, unset).1;
      forall k :: 0 <= k < |BoundParts(parts)| ==>
        r[|binds| + k] == BindVariableFor(BoundParts(parts)[k].attribute, BoundParts(parts)[k].value, |binds| + k, unset)
    decreases |parts|
  {
    if parts != [] {
      match parts[0]
      case Literal(t) =>
        assert BoundParts(parts) == BoundParts(parts[1..]);
        assert Assemble(parts, binds, unset).1 == Assemble(parts[1..], binds, unset).1;
        AssembleBinds(parts[1..], binds, unset);
      case Bound(a, v) =>
        var b := BindVariableFor(a, v, |binds|, unset);
        var r := Assemble(parts[1..], binds + [b], unset).1;
        assert Assemble(parts, binds, unset).1 == r;
        assert BoundParts(parts) == [parts[0]] + BoundParts(parts[1..]);
        AssembleBinds(parts[1..], binds + [b], unset);
        ConsBinds(r, binds, b, parts[0], BoundParts(parts[1..]), unset);
    }
  }

  /** The step of `AssembleBinds` for a bound piece `p`, whose bind `b` comes just after `binds`. */
  lemma ConsBinds(r: seq<BindVariable>, binds: seq<BindVariable>, b: BindVariable, p: Part, bp: seq<Part>, unset: string)
    requires p.Bound? && b == BindVariableFor(p.attribute, p.value, |binds|, unset)
    requires |r| == |binds| + 1 + |bp| && r[..|binds| + 1] == binds + [b]
    requires forall k :: 0 <= k < |bp| ==> bp[k].Bound?
    requires forall k :: 0 <= k < |bp| ==>
      r[|binds| + 1 + k] == BindVariableFor(bp[k].attribute, bp[k].value, |binds| + 1 + k, unset)
    ensures forall k :: 0 <= k < |[p] + bp| ==>
      r[|binds| + k] == BindVariableFor(([p] + bp)[k].attribute, ([p] + bp)[k].value, |binds| + k, unset)
  {
    var q := [p] + bp;
    forall k | 0 <= k < |q|
      ensures r[|binds| + k] == BindVariableFor(q[k].attribute, q[k].value, |binds| + k, unset)
    {
      if k == 0 {
        assert r[|binds|] == r[..|binds| + 1][|binds|];
      } else {
        ShiftBind(r, |binds|, q, bp, k, unset);
      }
    }
  }

  /** One index of `ConsBinds` past its head: the bind of piece `k` of `q` is the bind of piece
      `k - 1` of its tail `bp`. */
  lemma ShiftBind(r: seq<BindVariable>, n: nat, q: seq<Part>, bp: seq<Part>, k: nat, unset: string)
    requires |q| == 1 + |bp| && q[1..] == bp && 1 <= k < |q| && |r| == n + |q|
    requires bp[k - 1].Bound?
    requires r[n + 1 + (k - 1)] == BindVariableFor(bp[k - 1].attribute, bp[k - 1].value, n + 1 + (k - 1), unset)
    ensures q[k].Bound? && r[n + k] == BindVariableFor(q[k].attribute, q[k].value, n + k, unset)
  {
    assert q[k] == q[1..][k - 1];
  }

  /** Lockstep, text: the n-th placeholder written into the text, left to right, is the n-th new
      bind's placeholder. */
  lemma {:induction false} AssembleText(parts: seq<Part>, binds: seq<BindVariable>, unset: string)
    ensures var r := Assemble(parts, binds, unset);
      r.0 == Render(parts, Placeholders(r.1[|binds|..]))
    decreases |parts|
  {
    if parts != [] {
      var r := Assemble(parts, binds, unset);
      match parts[0]
      case Literal(t) =>
        AssembleText(parts[1..], binds, unset);
      case Bound(a, v) =>
        var b := BindVariableFor(a, v, |binds|, unset);
        var binds' := binds + [b];
        AssembleText(parts[1..], binds', unset);
        assert r.1[|binds|] == r.1[..|binds'|][|binds|];
        assert Placeholders(r.1[|binds|..])[1..] == Placeholders(r.1[|binds'|..]);
    }
  }

  // ---- the expression object

  /** Which expression class: `APRSQLExpression` or `APRPostgreSQLExpression`. */
  datatype Dialect = AprDialect | PostgreSQLDialect

  /** `APRSQLExpressionFactory` or `APRPostgreSQLExpressionFactory`. */
  datatype FactoryKind = AprFactory | PostgreSQLFactory

  /** The dialect of the expressions a factory creates. */
  function DialectOf(f: FactoryKind): (d: Dialect)
    ensures d == PostgreSQLDialect <==> f == PostgreSQLFactory
  {
    match f
    case AprFactory => AprDialect
    case PostgreSQLFactory => PostgreSQLDialect
  }

  /** `sqlStringForCaseInsensitiveLike`. */
  function CaseInsensitiveLike(d: Dialect, up: Hooks): (s: Option<string>)
    ensures d == PostgreSQLDialect ==> s == Some("ILIKE")
    ensures d == AprDialect ==> s == up.baseCaseInsensitiveLike
  {
    if d == PostgreSQLDialect then Some("ILIKE") else up.baseCaseInsensitiveLike
  }

  /** `columnTypeStringForAttribute`. */
  function ColumnTypeString(d: Dialect, up: Hooks, attr: Attribute): (s: string)
    ensures d == PostgreSQLDialect && attr.isAutoIncrement == Some(true) ==> s == "SERIAL"
    ensures !(d == PostgreSQLDialect && attr.isAutoIncrement == Some(true)) ==> s == up.baseColumnType(attr)
  {
    if d == PostgreSQLDialect && attr.isAutoIncrement == Some(true) then "SERIAL" else up.baseColumnType(attr)
  }

  /** The select list of `attrs`, appended one attribute at a time to an empty list. */
  function SelectList(up: Hooks, attrs: seq<Attribute>): string
    decreases |attrs|
  {
    if attrs == [] then "" else up.selectListAppend(SelectList(up, attrs[..|attrs| - 1]), attrs[|attrs| - 1])
  }

  /** The RETURNING column list: `*` without attributes, else their select list. */
  function ReturningColumns(up: Hooks, attrs: Option<seq<Attribute>>): string {
    if attrs.None? || attrs.value == [] then "*" else SelectList(up, attrs.value)
  }

  class Expression {
    const entity: Option<Entity>
    const dialect: Dialect
    var statement: string
    var bindVariables: seq<BindVariable>
    var listString: string
    var useAliases: bool

    /** `createExpression` of a factory: a new, empty expression for the entity. */
    constructor (f: FactoryKind, entity: Option<Entity>)
      ensures this.entity == entity && dialect == DialectOf(f)
      ensures statement == "" && bindVariables == [] && listString == ""
    {
      this.entity := entity;
      dialect := DialectOf(f);
      statement := "";
      bindVariables := [];
      listString := "";
    }

    /** The upstream `prepareInsertExpressionWithRow`, as the model assumes it: the statement becomes
        the INSERT's text and its bound pieces are appended to the binds. */
    method PrepareInsertExpressionWithRow(up: Hooks, row: Row)
      modifies this
      ensures var r := Assemble(up.insertParts(entity, row), old(bindVariables), up.unsetPlaceholder);
        statement == r.0 && bindVariables == r.1
      ensures listString == up.insertListString(entity, row, old(listString))
      ensures useAliases == old(useAliases)
    {
      var r := Assemble(up.insertParts(entity, row), bindVariables, up.unsetPlaceholder);
      statement := r.0;
      bindVariables := r.1;
      listString := up.insertListString(entity, row, listString);
    }

    /** `prepareInsertReturningExpressionWithRow`: nothing changes without an entity; otherwise the
        INSERT followed by ` RETURNING ` and the column list of `attrs`, with aliases off. The select
        list is collected in `listString`, which is emptied again before the INSERT is built. */
    method PrepareInsertReturningExpressionWithRow(up: Hooks, row: Row, attrs: Option<seq<Attribute>>)
      modifies this
      ensures entity.None? ==>
        statement == old(statement) && bindVariables == old(bindVariables) &&
        listString == old(listString) && useAliases == old(useAliases)
      ensures entity.Some? ==>
        var r := Assemble(up.insertParts(entity, row), old(bindVariables), up.unsetPlaceholder);
        && statement == r.0 + " RETURNING " + ReturningColumns(up, attrs)
        && bindVariables == r.1
        && listString == up.insertListString(entity, row, if attrs.Some? && attrs.value != [] then "" else old(listString))
        && !useAliases
    {
      if entity.None? {
        return;
      }
      useAliases := false;
      var columns: string;
      if attrs.Some? && attrs.value != [] {
        var list := attrs.value;
        listString := "";
        var i := 0;
        while i < |list|
          invariant 0 <= i <= |list|
          invariant listString == SelectList(up, list[..i])
          invariant statement == old(statement) && bindVariables == old(bindVariables) && !useAliases
        {
          assert list[..i + 1][..i] == list[..i];
          listString := up.selectListAppend(listString, list[i]);
          i := i + 1;
        }
        assert list[..i] == list;
        columns := listString;
        listString := "";
      } else {
        columns := "*";
      }
      PrepareInsertExpressionWithRow(up, row);
      statement := statement + " RETURNING " + columns;
    }
  }

  // ---- scenarios of the expression tests

  /** The name attribute of the test entities. */
  function NameAttribute(): Attribute {
    Attribute("name", None, Some("VARCHAR(255)"), None, None)
  }

  /** A value for a `VARCHAR(255)` column, such as "Zealandia" or "Donald", becomes exactly one
      bind with placeholder `%s` carrying that value. */
  lemma VarcharValueBindsAsString(prefix: string, s: string, unset: string)
    ensures var r := Assemble([Literal(prefix), Bound(Some(NameAttribute()), Some(Str(s)))], [], unset);
      |r.1| == 1 && r.1[0].placeholder == "%s" && r.1[0].value == Some(Str(s)) &&
      r.0 == prefix + "%s"
  {
    assert "INT" <= "VARCHAR(255)" ==> false by {
      if "INT" <= "VARCHAR(255)" { PrefixAt("VARCHAR(255)", "INT", 0); }
    }
    assert "VARCHAR" <= "VARCHAR(255)";
    assert BindPattern(NameAttribute()) == Some("%s");
    var b := BindVariableFor(Some(NameAttribute()), Some(Str(s)), 0, unset);
    var parts := [Literal(prefix), Bound(Some(NameAttribute()), Some(Str(s)))];
    assert parts[1..] == [Bound(Some(NameAttribute()), Some(Str(s)))];
    assert parts[1..][1..] == [];
    assert b.placeholder == "%s";
    var none: seq<BindVariable> := [];
    assert none + [b] == [b];
    assert Assemble([], [b], unset) == ("", [b]);
    var tail := parts[1..];
    assert tail[0] == Bound(Some(NameAttribute()), Some(Str(s))) && tail[1..] == [];
    assert "%s" + "" == "%s";
    assert Assemble(tail, none, unset) == ("%s", [b]);
  }
}
