/** `alter_column` on MySQL. The dialect has one combined statement,
    `ALTER TABLE <t> CHANGE <old> <new> <column definition>`, so the request's
    changes are merged with the `existing_*` facts the caller supplies into a
    full column definition, and a type must be known. */
module AlterColumn {
  import opened Results
  import opened Strings
  import opened Identifiers
  import opened ServerDefaults

  /** A column type, as the opaque token its DDL renders to. */
  datatype SqlType = SqlType(ddl: string)

  const Integer: SqlType := SqlType("INTEGER")

  /** The `server_default` argument: not passed (keep what exists), passed as
      `None` (drop the default), or passed a value. */
  datatype DefaultChange = KeepDefault | DropDefault | SetDefault(value: ServerDefault)

  /** The arguments of one `alter_column` call. */
  datatype AlterColumnOp = AlterColumnOp(
    tableName: string,
    columnName: string,
    newColumnName: Option<string>,
    newType: Option<SqlType>,
    nullable: Option<bool>,
    serverDefault: DefaultChange,
    autoincrement: Option<bool>,
    existingType: Option<SqlType>,
    existingNullable: Option<bool>,
    existingServerDefault: Option<ServerDefault>,
    existingAutoincrement: Option<bool>)

  /** A call naming only the table and the column; the other arguments are
      given with `.(field := value)`, as keyword arguments are. */
  function AlterOp(table: string, column: string): AlterColumnOp {
    AlterColumnOp(table, column, None, None, None, KeepDefault, None, None, None, None, None)
  }

  /** The resolved CHANGE statement: every part of the column definition known. */
  datatype ChangeColumn = ChangeColumn(
    tableName: string,
    oldName: string,
    newName: string,
    colType: SqlType,
    nullable: bool,
    default: Option<ServerDefault>,
    autoincrement: bool)

  const MissingTypeMessage: string := "All MySQL ALTER COLUMN operations require the existing type."

  const MissingTypeError: DdlError := DdlError(CommandError, MissingTypeMessage)

  /** Whether the statement carries AUTO_INCREMENT: the requested flag when one
      is given, else the existing one, else not. */
  predicate ResolvedAutoincrement(op: AlterColumnOp) {
    match op.autoincrement
    case Some(flag) => flag
    case None => op.existingAutoincrement == Some(true)
  }

  /** Merges the requested changes with the existing column facts. */
  function Resolve(op: AlterColumnOp): (r: Result<ChangeColumn>)
    ensures r.Failure? <==> op.newType.None? && op.existingType.None?
    ensures r.Failure? ==> r.error == MissingTypeError
    ensures r.Success? ==> r.value.tableName == op.tableName && r.value.oldName == op.columnName
    // a rename gives the new name; without one the old name is repeated
    ensures r.Success? && op.newColumnName.Some? ==> r.value.newName == op.newColumnName.value
    ensures r.Success? && op.newColumnName.None? ==> r.value.newName == op.columnName
    // a new type wins over the existing one
    ensures r.Success? && op.newType.Some? ==> r.value.colType == op.newType.value
    ensures r.Success? && op.newType.None? ==> r.value.colType == op.existingType.value
    // requested nullability, else the existing one, else nullable
    ensures r.Success? && op.nullable.Some? ==> r.value.nullable == op.nullable.value
    ensures r.Success? && op.nullable.None? && op.existingNullable.Some? ==>
      r.value.nullable == op.existingNullable.value
    ensures r.Success? && op.nullable.None? && op.existingNullable.None? ==> r.value.nullable
    // a new default wins, an explicit drop removes, otherwise the existing one is kept
    ensures r.Success? && op.serverDefault.SetDefault? ==> r.value.default == Some(op.serverDefault.value)
    ensures r.Success? && op.serverDefault.DropDefault? ==> r.value.default == None
    ensures r.Success? && op.serverDefault.KeepDefault? ==> r.value.default == op.existingServerDefault
    // AUTO_INCREMENT: a requested flag decides; otherwise the existing flag is kept
    ensures r.Success? && op.autoincrement.Some? ==> r.value.autoincrement == op.autoincrement.value
    ensures r.Success? && op.autoincrement.None? ==>
      (r.value.autoincrement <==> op.existingAutoincrement == Some(true))
  {
    var colType :- match (op.newType, op.existingType)
      case (Some(t), _) => Success(t)
      case (None, Some(t)) => Success(t)
      case (None, None) => Failure(MissingTypeError);
    Success(ChangeColumn(
      op.tableName,
      op.columnName,
      match op.newColumnName case Some(n) => n case None => op.columnName,
      colType,
      match op.nullable
        case Some(b) => b
        case None => match op.existingNullable case Some(b) => b case None => true,
      match op.serverDefault
        case SetDefault(d) => Some(d)
        case DropDefault => None
        case KeepDefault => op.existingServerDefault,
      ResolvedAutoincrement(op)))
  }

  function NullToken(nullable: bool): string {
    if nullable then "NULL" else "NOT NULL"
  }

  function DefaultClause(default: Option<ServerDefault>): string {
    match default
    case Some(d) => " DEFAULT " + RenderDefault(d)
    case None => ""
  }

  function AutoincrementClause(autoincrement: bool): string {
    if autoincrement then " AUTO_INCREMENT" else ""
  }

  /** The nullability token and the DEFAULT clause. */
  function NullAndDefault(cc: ChangeColumn): string {
    NullToken(cc.nullable) + DefaultClause(cc.default)
  }

  /** The clauses after the type: nullability, then the optional DEFAULT and
      AUTO_INCREMENT clauses. */
  function Clauses(cc: ChangeColumn): string {
    NullAndDefault(cc) + AutoincrementClause(cc.autoincrement)
  }

  /** The column definition after the new name: the type, then `clauses`. */
  function ColumnSpec(cc: ChangeColumn, clauses: string): string {
    cc.colType.ddl + (" " + clauses)
  }

  /** `ALTER TABLE <table> CHANGE <old> <new> <type> ` followed by `clauses`, each
      name quoted on its own. (Grouped from the right, the order in which the
      statement is read back.) */
  function StatementWith(cc: ChangeColumn, clauses: string): string {
    "ALTER TABLE " + (Quote(cc.tableName) + (" CHANGE " + (Quote(cc.oldName) + (" "
    + (Quote(cc.newName) + (" " + ColumnSpec(cc, clauses)))))))
  }

  /** The CHANGE statement. */
  function ChangeColumnSql(cc: ChangeColumn): (r: string)
    ensures StartsWith(r, "ALTER TABLE " + Quote(cc.tableName) + " CHANGE ")
    ensures cc.autoincrement ==> EndsWith(r, " AUTO_INCREMENT")
  {
    StatementWithAppend(cc, NullAndDefault(cc), AutoincrementClause(cc.autoincrement));
    EndsWithAppend(StatementWith(cc, NullAndDefault(cc)), AutoincrementClause(cc.autoincrement));
    StatementWith(cc, Clauses(cc))
  }

  // ---------------------------------------------------------------------------
  // Reading a CHANGE statement back.

  /** Parts that can be read back: no backtick in any name, a type token without
      spaces, a well-formed default. */
  predicate WellFormedChange(cc: ChangeColumn) {
    && '`' !in cc.tableName && '`' !in cc.oldName && '`' !in cc.newName
    && ' ' !in cc.colType.ddl
    && (cc.default.Some? ==> WellFormedDefault(cc.default.value))
  }

  /** Reads an optional DEFAULT clause that ends the text. */
  function ParseDefaultClause(s: string): Option<Option<ServerDefault>> {
    if s == [] then Some(None)
    else if StartsWith(s, " DEFAULT ") then
      match ParseDefault(s[|" DEFAULT "|..])
      case None => None
      case Some(d) => Some(Some(d))
    else None
  }

  /** Reads the nullability token and the optional DEFAULT clause. */
  function ParseNullAndDefault(s: string): Option<(bool, Option<ServerDefault>)> {
    var nullable := !StartsWith(s, "NOT NULL");
    if !nullable || StartsWith(s, "NULL") then
      match ParseDefaultClause(s[|NullToken(nullable)|..])
      case None => None
      case Some(d) => Some((nullable, d))
    else None
  }

  /** Reads the clauses after the type token, AUTO_INCREMENT being the last. */
  function ParseClauses(s: string): Option<(bool, Option<ServerDefault>, bool)> {
    if EndsWith(s, " AUTO_INCREMENT") then
      match ParseNullAndDefault(s[..|s| - |" AUTO_INCREMENT"|])
      case None => None
      case Some((nullable, default)) => Some((nullable, default, true))
    else
      match ParseNullAndDefault(s)
      case None => None
      case Some((nullable, default)) => Some((nullable, default, false))
  }

  /** Reads the column definition after the new name. */
  function ParseColumnSpec(s: string): Option<(SqlType, bool, Option<ServerDefault>, bool)> {
    var ddl := Span(s, ' ');
    if |ddl| == |s| then None
    else
      match ParseClauses(s[|ddl| + 1..])
      case None => None
      case Some((nullable, default, autoincrement)) => Some((SqlType(ddl), nullable, default, autoincrement))
  }

  /** Reads a whole CHANGE statement. */
  function ParseChangeColumn(s: string): Option<ChangeColumn> {
    if !StartsWith(s, "ALTER TABLE ") then None
    else match ParseIdentifier(s[|"ALTER TABLE "|..])
    case None => None
    case Some((table, s1)) =>
      if !StartsWith(s1, " CHANGE ") then None
      else match ParseIdentifier(s1[|" CHANGE "|..])
      case None => None
      case Some((oldName, s2)) =>
        if !StartsWith(s2, " ") then None
        else match ParseIdentifier(s2[1..])
        case None => None
        case Some((newName, s3)) =>
          if !StartsWith(s3, " ") then None
          else match ParseColumnSpec(s3[1..])
          case None => None
          case Some((colType, nullable, default, autoincrement)) =>
            Some(ChangeColumn(table, oldName, newName, colType, nullable, default, autoincrement))
  }

  /** `alter_column`: the single CHANGE statement, or the missing-type error. */
  function AlterColumnSql(op: AlterColumnOp): (r: Result<string>)
    ensures r.Failure? <==> op.newType.None? && op.existingType.None?
    ensures r.Failure? ==> r.error == MissingTypeError
    ensures r.Success? ==> StartsWith(r.value, "ALTER TABLE " + Quote(op.tableName) + " CHANGE ")
  {
    var cc :- Resolve(op);
    Success(ChangeColumnSql(cc))
  }

  // ---------------------------------------------------------------------------
  // Properties.

  lemma NullAndDefaultLastChar(cc: ChangeColumn)
    requires cc.default.Some? ==> WellFormedDefault(cc.default.value)
    ensures var t := NullAndDefault(cc); |t| > 0 && t[|t| - 1] != 'T'
  {
    if cc.default.Some? {
      RenderDefaultLastChar(cc.default.value);
    }
  }

  lemma ParseRenderDefaultClause(default: Option<ServerDefault>)
    requires default.Some? ==> WellFormedDefault(default.value)
    ensures ParseDefaultClause(DefaultClause(default)) == Some(default)
  {
    if default.Some? {
      StartsWithAppend(" DEFAULT ", RenderDefault(default.value));
      ParseRenderDefault(default.value);
    }
  }

  lemma ParseRenderNullAndDefault(cc: ChangeColumn)
    requires WellFormedChange(cc)
    ensures ParseNullAndDefault(NullAndDefault(cc)) == Some((cc.nullable, cc.default))
  {
    var s := NullAndDefault(cc);
    StartsWithAppend(NullToken(cc.nullable), DefaultClause(cc.default));
    if cc.nullable {
      assert !StartsWith(s, "NOT NULL") by { assert s[1] == 'U'; }
    }
    ParseRenderDefaultClause(cc.default);
  }

  /** The clauses after the type token are read back, AUTO_INCREMENT included. */
  lemma ParseRenderClauses(cc: ChangeColumn)
    requires WellFormedChange(cc)
    ensures ParseClauses(NullAndDefault(cc) + AutoincrementClause(cc.autoincrement))
      == Some((cc.nullable, cc.default, cc.autoincrement))
  {
    var nd := NullAndDefault(cc);
    ParseRenderNullAndDefault(cc);
    if cc.autoincrement {
      EndsWithAppend(nd, " AUTO_INCREMENT");
    } else {
      assert nd + AutoincrementClause(cc.autoincrement) == nd;
      NullAndDefaultLastChar(cc);
      NotEndsWithByLastChar(nd, " AUTO_INCREMENT");
    }
  }

  /** The column definition is read back exactly. */
  lemma ParseRenderColumnSpec(cc: ChangeColumn)
    requires WellFormedChange(cc)
    ensures ParseColumnSpec(ColumnSpec(cc, Clauses(cc)))
      == Some((cc.colType, cc.nullable, cc.default, cc.autoincrement))
  {
    var ddl := cc.colType.ddl;
    var tail := NullAndDefault(cc) + AutoincrementClause(cc.autoincrement);
    SpanOfWord(ddl, ' ', " " + tail);
    StartsWithAppend(ddl, " " + tail);
    StartsWithAppend(" ", tail);
    ParseRenderClauses(cc);
  }

  /** A CHANGE statement is read back exactly: each name, the type, the
      nullability, whether a DEFAULT clause is present and which default it
      holds, and whether AUTO_INCREMENT is present. */
  lemma ParseRenderChangeColumn(cc: ChangeColumn)
    requires WellFormedChange(cc)
    ensures ParseChangeColumn(ChangeColumnSql(cc)) == Some(cc)
  {
    var qt, qo, qn := Quote(cc.tableName), Quote(cc.oldName), Quote(cc.newName);
    var spec := ColumnSpec(cc, Clauses(cc));
    var s3 := " " + spec;
    var s2 := " " + (qn + s3);
    var s1 := " CHANGE " + (qo + s2);
    StartsWithAppend("ALTER TABLE ", qt + s1);
    ParseQuote(cc.tableName, s1);
    StartsWithAppend(" CHANGE ", qo + s2);
    ParseQuote(cc.oldName, s2);
    StartsWithAppend(" ", qn + s3);
    ParseQuote(cc.newName, s3);
    StartsWithAppend(" ", spec);
    ParseRenderColumnSpec(cc);
  }

  /** Every default the request may carry into the statement renders readably. */
  predicate ReadableDefaults(op: AlterColumnOp) {
    && (op.serverDefault.SetDefault? ==> WellFormedDefault(op.serverDefault.value))
    && (op.existingServerDefault.Some? ==> WellFormedDefault(op.existingServerDefault.value))
  }

  /** A request whose parts can all be read back from the statement. */
  predicate WellFormedRequest(op: AlterColumnOp) {
    && '`' !in op.tableName && '`' !in op.columnName
    && (op.newColumnName.Some? ==> '`' !in op.newColumnName.value)
    && (op.newType.Some? ==> ' ' !in op.newType.value.ddl)
    && (op.existingType.Some? ==> ' ' !in op.existingType.value.ddl)
    && ReadableDefaults(op)
  }

  /** The emitted statement says exactly what the merge resolved: reading it
      back gives the resolved change. */
  lemma AlterColumnReadsBack(op: AlterColumnOp)
    requires WellFormedRequest(op)
    ensures AlterColumnSql(op).Success? ==>
      Resolve(op).Success? && ParseChangeColumn(AlterColumnSql(op).value) == Some(Resolve(op).value)
  {
    if Resolve(op).Success? {
      ParseRenderChangeColumn(Resolve(op).value);
    }
  }

  /** Text added after the clauses stays at the end of the statement. */
  lemma StatementWithAppend(cc: ChangeColumn, x: string, y: string)
    ensures StatementWith(cc, x + y) == StatementWith(cc, x) + y
  {
    var c0 := " " + x;
    AppendAssoc(" ", x, y);
    var c1 := cc.colType.ddl + c0;
    AppendAssoc(cc.colType.ddl, c0, y);
    var c2 := " " + c1;
    AppendAssoc(" ", c1, y);
    var c3 := Quote(cc.newName) + c2;
    AppendAssoc(Quote(cc.newName), c2, y);
    var c4 := " " + c3;
    AppendAssoc(" ", c3, y);
    var c5 := Quote(cc.oldName) + c4;
    AppendAssoc(Quote(cc.oldName), c4, y);
    var c6 := " CHANGE " + c5;
    AppendAssoc(" CHANGE ", c5, y);
    var c7 := Quote(cc.tableName) + c6;
    AppendAssoc(Quote(cc.tableName), c6, y);
    AppendAssoc("ALTER TABLE ", c7, y);
  }

  /** AUTO_INCREMENT, when set, ends the statement, whatever the names, the
      type and the default; conversely a statement ending in AUTO_INCREMENT has
      the flag set, provided the default is one that renders readably (a raw
      text default may itself end in ` AUTO_INCREMENT`). */
  lemma ChangeColumnSqlEndsWithAutoincrement(cc: ChangeColumn)
    ensures cc.autoincrement ==> EndsWith(ChangeColumnSql(cc), " AUTO_INCREMENT")
    ensures (cc.default.Some? ==> WellFormedDefault(cc.default.value)) ==>
      EndsWith(ChangeColumnSql(cc), " AUTO_INCREMENT") ==> cc.autoincrement
  {
    var nd := NullAndDefault(cc);
    StatementWithAppend(cc, nd, AutoincrementClause(cc.autoincrement));
    var s := StatementWith(cc, nd);
    if cc.autoincrement {
      EndsWithAppend(s, " AUTO_INCREMENT");
    } else if cc.default.Some? ==> WellFormedDefault(cc.default.value) {
      assert ChangeColumnSql(cc) == s + "";
      NullAndDefaultLastChar(cc);
      assert s[|s| - 1] == nd[|nd| - 1];
      NotEndsWithByLastChar(s + "", " AUTO_INCREMENT");
    }
  }

  /** Rewriting helper: the statement regrouped from the left, word by word,
      for comparing it with a literal expected text. */
  lemma ChangeColumnSqlInOrder(cc: ChangeColumn)
    ensures ChangeColumnSql(cc)
      == "ALTER TABLE " + Quote(cc.tableName) + " CHANGE " + Quote(cc.oldName) + " " + Quote(cc.newName)
         + " " + cc.colType.ddl + " " + NullToken(cc.nullable) + DefaultClause(cc.default)
         + AutoincrementClause(cc.autoincrement)
  {
    var nt, dc, ac := NullToken(cc.nullable), DefaultClause(cc.default), AutoincrementClause(cc.autoincrement);
    var c0 := " " + ((nt + dc) + ac);
    var c1 := cc.colType.ddl + c0;
    var c2 := " " + c1;
    var c3 := Quote(cc.newName) + c2;
    var c4 := " " + c3;
    var c5 := Quote(cc.oldName) + c4;
    var c6 := " CHANGE " + c5;
    var c7 := Quote(cc.tableName) + c6;
    var h0 := "ALTER TABLE " + Quote(cc.tableName);
    var h1 := h0 + " CHANGE ";
    var h2 := h1 + Quote(cc.oldName);
    var h3 := h2 + " ";
    var h4 := h3 + Quote(cc.newName);
    var h5 := h4 + " ";
    var h6 := h5 + cc.colType.ddl;
    AppendAssoc("ALTER TABLE ", Quote(cc.tableName), c6);
    AppendAssoc(h0, " CHANGE ", c5);
    AppendAssoc(h1, Quote(cc.oldName), c4);
    AppendAssoc(h2, " ", c3);
    AppendAssoc(h3, Quote(cc.newName), c2);
    AppendAssoc(h4, " ", c1);
    AppendAssoc(h5, cc.colType.ddl, c0);
    AppendAssoc(h6, " ", (nt + dc) + ac);
    AppendAssoc(h6 + " ", nt + dc, ac);
    AppendAssoc(h6 + " ", nt, dc);
  }

  /** AUTO_INCREMENT ends the statement exactly when the resolved flag is set. */
  lemma AutoincrementIsLastClause(op: AlterColumnOp)
    ensures AlterColumnSql(op).Success? && ResolvedAutoincrement(op) ==>
      EndsWith(AlterColumnSql(op).value, " AUTO_INCREMENT")
    ensures AlterColumnSql(op).Success? && ReadableDefaults(op) ==>
      EndsWith(AlterColumnSql(op).value, " AUTO_INCREMENT") ==> ResolvedAutoincrement(op)
  {
    if Resolve(op).Success? {
      ChangeColumnSqlEndsWithAutoincrement(Resolve(op).value);
    }
  }

  lemma ChangeColumnSqlAutoincrement(cc: ChangeColumn)
    ensures ChangeColumnSql(cc.(autoincrement := true))
      == ChangeColumnSql(cc.(autoincrement := false)) + " AUTO_INCREMENT"
  {
    var nd := NullAndDefault(cc);
    StatementWithAppend(cc, nd, " AUTO_INCREMENT");
    assert nd + "" == nd;
  }

  /** Requesting AUTO_INCREMENT instead of its removal changes nothing but the
      trailing clause. */
  lemma AutoincrementOnlyAppends(op: AlterColumnOp)
    ensures var on := AlterColumnSql(op.(autoincrement := Some(true)));
      var off := AlterColumnSql(op.(autoincrement := Some(false)));
      on.Success? == off.Success? && (on.Success? ==> on.value == off.value + " AUTO_INCREMENT")
  {
    var on := Resolve(op.(autoincrement := Some(true)));
    var off := Resolve(op.(autoincrement := Some(false)));
    if on.Success? {
      assert on.value == off.value.(autoincrement := true);
      ChangeColumnSqlAutoincrement(off.value);
    }
  }
}
