/** `drop_constraint` on MySQL. The `type_` argument picks the kind of
    constraint; MySQL drops a foreign key, a primary key or a unique constraint
    (an index) with its own statement, and has no statement for a CHECK
    constraint or for a constraint of unspecified kind. */
module DropConstraint {
  import opened Results
  import opened Strings
  import opened Identifiers

  /** The constraint kinds `type_` can name; `Generic` is `type_=None`. */
  datatype ConstraintKind = ForeignKey | PrimaryKey | Unique | Check | Generic

  const UnknownKindMessage: string := "'type' can be one of 'check', 'foreignkey', 'primary', 'unique', None"
  const CheckMessage: string := "MySQL does not support CHECK constraints."
  const GenericMessage: string := "No generic 'DROP CONSTRAINT' in MySQL - please specify constraint type"

  const UnknownKindError: DdlError := DdlError(TypeError, UnknownKindMessage)
  const CheckError: DdlError := DdlError(NotImplementedError, CheckMessage)
  const GenericError: DdlError := DdlError(NotImplementedError, GenericMessage)

  /** The `type_` value that names a kind. */
  function KindName(kind: ConstraintKind): Option<string> {
    match kind
    case ForeignKey => Some("foreignkey")
    case PrimaryKey => Some("primary")
    case Unique => Some("unique")
    case Check => Some("check")
    case Generic => None
  }

  /** Looks up the `type_` argument; any other name is a TypeError. */
  function KindOf(typeName: Option<string>): (r: Result<ConstraintKind>)
    ensures r.Success? ==> KindName(r.value) == typeName
    ensures r.Failure? ==> r.error == UnknownKindError
  {
    match typeName
    case None => Success(Generic)
    case Some(name) =>
      if name == "foreignkey" then Success(ForeignKey)
      else if name == "primary" then Success(PrimaryKey)
      else if name == "unique" then Success(Unique)
      else if name == "check" then Success(Check)
      else Failure(UnknownKindError)
  }

  /** `ALTER TABLE <table> DROP ` followed by `clause`. */
  function DropStatement(table: string, clause: string): (r: string)
    ensures StartsWith(r, "ALTER TABLE " + Quote(table) + " DROP ")
    ensures EndsWith(r, clause)
  {
    EndsWithAppend("ALTER TABLE " + (Quote(table) + " DROP "), clause);
    "ALTER TABLE " + (Quote(table) + (" DROP " + clause))
  }

  /** The DROP statement for a constraint of a known kind, or the error for a
      kind MySQL cannot drop. */
  function DropSql(name: string, table: string, kind: ConstraintKind): (r: Result<string>)
    ensures r.Success? <==> kind in {ForeignKey, PrimaryKey, Unique}
    ensures kind == Check ==> r == Failure(CheckError)
    ensures kind == Generic ==> r == Failure(GenericError)
  {
    match kind
    case ForeignKey => Success(DropStatement(table, "FOREIGN KEY " + Quote(name)))
    case PrimaryKey => Success(DropStatement(table, "PRIMARY KEY "))
    case Unique => Success(DropStatement(table, "INDEX " + Quote(name)))
    case Check => Failure(CheckError)
    case Generic => Failure(GenericError)
  }

  /** Rewriting helper: the DROP statement regrouped from the left, for
      comparing it with a literal expected text. */
  lemma DropStatementInOrder(table: string, clause: string)
    ensures DropStatement(table, clause) == "ALTER TABLE " + Quote(table) + " DROP " + clause
  {
    AppendAssoc(Quote(table), " DROP ", clause);
    AppendAssoc("ALTER TABLE ", Quote(table) + " DROP ", clause);
  }

  /** `drop_constraint(name, table, type_)`. */
  function DropConstraintSql(name: string, table: string, typeName: Option<string>): (r: Result<string>)
    ensures typeName.None? ==> r == Failure(GenericError)
    ensures r.Failure? <==> typeName !in {Some("foreignkey"), Some("primary"), Some("unique")}
  {
    var kind :- KindOf(typeName);
    DropSql(name, table, kind)
  }

  // ---------------------------------------------------------------------------
  // Reading a DROP statement back.

  /** What a DROP statement names: the table, the kind, and the constraint name
      when the statement carries one. */
  datatype DropTarget = DropTarget(table: string, kind: ConstraintKind, name: Option<string>)

  /** Reads what follows `DROP `. */
  function ParseDropClause(table: string, clause: string): Option<DropTarget> {
    if clause == "PRIMARY KEY " then Some(DropTarget(table, PrimaryKey, None))
    else if StartsWith(clause, "FOREIGN KEY ") then
      match ParseIdentifier(clause[|"FOREIGN KEY "|..])
      case Some((name, after)) => if after == [] then Some(DropTarget(table, ForeignKey, Some(name))) else None
      case None => None
    else if StartsWith(clause, "INDEX ") then
      match ParseIdentifier(clause[|"INDEX "|..])
      case Some((name, after)) => if after == [] then Some(DropTarget(table, Unique, Some(name))) else None
      case None => None
    else None
  }

  /** Reads a DROP statement. */
  function ParseDropSql(s: string): Option<DropTarget> {
    if !StartsWith(s, "ALTER TABLE ") then None
    else match ParseIdentifier(s[|"ALTER TABLE "|..])
    case None => None
    case Some((table, rest)) =>
      if !StartsWith(rest, " DROP ") then None
      else ParseDropClause(table, rest[|" DROP "|..])
  }

  // ---------------------------------------------------------------------------
  // Properties.

  /** Every kind is named by exactly one `type_` value. */
  lemma KindNameRoundTrip(kind: ConstraintKind)
    ensures KindOf(KindName(kind)) == Success(kind)
  {
  }

  /** The primary key is dropped without its name: the statement is the same
      whatever name is passed. */
  lemma PrimaryKeyDropIgnoresName(name1: string, name2: string, table: string)
    ensures DropConstraintSql(name1, table, Some("primary")) == DropConstraintSql(name2, table, Some("primary"))
    ensures DropConstraintSql(name1, table, Some("primary")).Success?
  {
  }

  lemma ParseDropStatement(table: string, clause: string)
    requires '`' !in table
    ensures ParseDropSql(DropStatement(table, clause)) == ParseDropClause(table, clause)
  {
    StartsWithAppend("ALTER TABLE ", Quote(table) + (" DROP " + clause));
    ParseQuote(table, " DROP " + clause);
    StartsWithAppend(" DROP ", clause);
  }

  lemma ParseNamedClause(keyword: string, name: string)
    requires '`' !in name
    ensures StartsWith(keyword + Quote(name), keyword)
    ensures ParseIdentifier((keyword + Quote(name))[|keyword|..]) == Some((name, []))
  {
    StartsWithAppend(keyword, Quote(name));
    ParseQuote(name, []);
    assert Quote(name) + [] == Quote(name);
  }

  lemma ParseForeignKeyClause(table: string, name: string)
    requires '`' !in name
    ensures ParseDropClause(table, "FOREIGN KEY " + Quote(name)) == Some(DropTarget(table, ForeignKey, Some(name)))
  {
    var clause := "FOREIGN KEY " + Quote(name);
    ParseNamedClause("FOREIGN KEY ", name);
    assert clause != "PRIMARY KEY " by { assert clause[0] == 'F'; }
  }

  lemma ParseIndexClause(table: string, name: string)
    requires '`' !in name
    ensures ParseDropClause(table, "INDEX " + Quote(name)) == Some(DropTarget(table, Unique, Some(name)))
  {
    var clause := "INDEX " + Quote(name);
    ParseNamedClause("INDEX ", name);
    assert clause != "PRIMARY KEY " && !StartsWith(clause, "FOREIGN KEY ") by { assert clause[0] == 'I'; }
  }

  /** A DROP statement is read back exactly: the table, the kind, and the
      constraint name for a foreign key or a unique index (none for the primary
      key). */
  lemma ParseDropRoundTrip(name: string, table: string, kind: ConstraintKind)
    requires '`' !in name && '`' !in table
    requires DropSql(name, table, kind).Success?
    ensures ParseDropSql(DropSql(name, table, kind).value)
      == Some(DropTarget(table, kind, if kind == PrimaryKey then None else Some(name)))
  {
    match kind
    case ForeignKey =>
      ParseDropStatement(table, "FOREIGN KEY " + Quote(name));
      ParseForeignKeyClause(table, name);
    case PrimaryKey =>
      ParseDropStatement(table, "PRIMARY KEY ");
    case Unique =>
      ParseDropStatement(table, "INDEX " + Quote(name));
      ParseIndexClause(table, name);
  }
}
