# MySQL operations of a schema-migration tool, in Dafny

This project models the MySQL half of two migration operations of alembic,
as its `MySQLOpTest` test class pins them down (tests/test_mysql.py:10-145):

- `alter_column(table, column, ...)` merges the requested changes
  (`new_column_name`, `type_`, `nullable`, `server_default`, `autoincrement`)
  with the `existing_*` facts the caller passes. It emits the single MySQL
  statement `ALTER TABLE <t> CHANGE <old> <new> <TYPE> NULL|NOT NULL
  [DEFAULT <d>] [AUTO_INCREMENT]`. When no type is known it raises a
  `CommandError` instead.
- Identifier quoting. A table or column name holding an upper-case letter
  or a space is wrapped in backticks. Any other name is emitted bare. Each
  name is quoted on its own.
- Server-default rendering. A string default becomes `'q'`. A compiled SQL
  function call becomes `name(arg, ...)`, and the built-in
  `current_timestamp` becomes the bare keyword `CURRENT_TIMESTAMP`.
- `drop_constraint(name, table, type_)` maps `foreignkey`, `primary` and
  `unique` to their DROP statements. `check` raises `NotImplementedError`,
  no type raises `NotImplementedError` with a different message, and any
  other type raises `TypeError`.

Everything is pure: datatypes for the request, the resolved column
definition, the default tree, the constraint kind and the error, and
functions from the request to `Result<string>` (the SQL or the error).
Each rendering has an inverse reader. Round-trip lemmas show that the
statement holds exactly what was resolved. Every test of `MySQLOpTest` is
restated as a lemma about the model, with the exact expected string or
exception.

Modules, one per file:

- `Results` (results.dfy): `Option`, `Result`, and the raised exception as
  `DdlError(kind, message)`.
- `Strings` (strings.dfy): prefix, suffix and span helpers.
- `Identifiers` (identifiers.dfy): backtick quoting and its reader.
- `ServerDefaults` (server_defaults.dfy): the default tree, its rendering
  and its reader.
- `AlterColumn` (alter_column.dfy): the `alter_column` request, its merge
  with the existing facts, the CHANGE statement and its reader.
- `DropConstraint` (drop_constraint.dfy): the constraint kind lookup, the
  DROP statement and its reader.
- `MySqlOpCases` (mysql_op_cases.dfy): the test expectations.

## Model

| member | source | states |
|---|---|---|
| Identifiers.Quote | tests/test_mysql.py:18-32 | a name comes back unchanged exactly when it holds no upper-case letter and no space; otherwise it comes back wrapped in backticks |
| Identifiers.ParseQuote | tests/test_mysql.py:18-32 | reading an identifier from a quoted or bare name gives back the name and the text after it, for any name without a backtick followed by a space or by the end of the text |
| ServerDefaults.RenderExpr | tests/test_mysql.py:42-50 | the built-in `current_timestamp` renders as the bare keyword `CURRENT_TIMESTAMP`, dropping any arguments; any other function renders as its name, `(`, and a closing `)`; the exact text is pinned down by ParseRenderExpr and MySqlOpCases.RenameColumnCompiledServerDefault |
| ServerDefaults.RenderDefault | tests/test_mysql.py:34-50 | a string default renders as the string itself between single quotes; the exact text is pinned down by ParseRenderDefault and MySqlOpCases.RenameColumnServerDefault |
| ServerDefaults.ParseRenderExpr | tests/test_mysql.py:42-50 | reading a rendered function-call tree (built-in keyword included) gives back the same tree and the text after it, for a well-formed tree: no raw text, user function names of lower-case letters, digits and `_` only, and `current_timestamp` called without arguments |
| ServerDefaults.ParseRenderDefault | tests/test_mysql.py:34-50 | a rendered string default or call default reads back as the same default, for a well-formed default: a string without `'`, or a well-formed call tree as above |
| ServerDefaults.RenderDefaultLastChar | tests/test_mysql.py:34-58 | a rendered well-formed default (a string without `'`, or a call tree without raw text) is non-empty and never ends in `T`, so it cannot be taken for a trailing AUTO_INCREMENT; raw text such as `DEFAULT` is excluded |
| AlterColumn.Resolve | tests/test_mysql.py:11-98 | the merge fails exactly when neither `type_` nor `existing_type` is given, with the missing-type CommandError; otherwise: new name else old name, new type else existing type, requested nullability else existing else nullable, a set default wins, a dropped default is absent, else the existing default, a requested autoincrement flag wins, else the existing flag |
| AlterColumn.AlterColumnSql | tests/test_mysql.py:11-98 | `alter_column` fails exactly when no type is known, with the CommandError and its message; otherwise it emits one statement that starts with `ALTER TABLE <quoted table> CHANGE ` |
| AlterColumn.ChangeColumnSql | tests/test_mysql.py:11-89 | the statement starts with `ALTER TABLE <quoted table> CHANGE ` and, when autoincrement is set, ends with ` AUTO_INCREMENT`; the whole text is pinned down by ParseRenderChangeColumn, ChangeColumnSqlEndsWithAutoincrement and the MySqlOpCases alter lemmas |
| AlterColumn.ParseRenderChangeColumn | tests/test_mysql.py:11-89 | a CHANGE statement reads back as the same column definition (names, type, nullability, default and autoincrement), when no name holds a backtick, the type token holds no space, and the default is well-formed |
| AlterColumn.AlterColumnReadsBack | tests/test_mysql.py:11-89 | a successful `alter_column` emits a statement that reads back as exactly the merged column definition, when no table or column name holds a backtick, no type token holds a space, and every default passed is well-formed |
| AlterColumn.AutoincrementIsLastClause | tests/test_mysql.py:52-75 | a successful statement ends with ` AUTO_INCREMENT` when the resolved flag is set (the requested flag, else the existing one), for any request; conversely, a successful statement ending with ` AUTO_INCREMENT` has the flag set, when the requested and existing defaults are well-formed (a raw text default may itself end in ` AUTO_INCREMENT`) |
| AlterColumn.ChangeColumnSqlEndsWithAutoincrement | tests/test_mysql.py:52-75 | the statement ends with ` AUTO_INCREMENT` when autoincrement is set, for any definition; conversely it has the flag set when it ends so and its default, if any, is well-formed |
| AlterColumn.AutoincrementOnlyAppends | tests/test_mysql.py:60-75 | requesting autoincrement true instead of false succeeds or fails alike, and appends ` AUTO_INCREMENT` to the very same statement |
| AlterColumn.ChangeColumnSqlAutoincrement | tests/test_mysql.py:60-75 | the statement with autoincrement is the statement without it followed by ` AUTO_INCREMENT` |
| DropConstraint.KindOf | tests/test_mysql.py:100-145 | a recognised `type_` is the name of the kind it returns; any other name fails with the TypeError listing the accepted types |
| DropConstraint.KindNameRoundTrip | tests/test_mysql.py:100-145 | each constraint kind is found again from its own `type_` name |
| DropConstraint.DropSql | tests/test_mysql.py:100-127 | a statement exactly for foreign keys, primary keys and unique constraints; CHECK fails with its NotImplementedError; the unspecified kind fails with the generic NotImplementedError |
| DropConstraint.DropConstraintSql | tests/test_mysql.py:100-145 | `drop_constraint` fails exactly when `type_` is not `foreignkey`, `primary` or `unique`; without a type it fails with the generic NotImplementedError |
| DropConstraint.DropStatement | tests/test_mysql.py:100-119 | the DROP statement starts with `ALTER TABLE <quoted table> DROP ` and ends with the clause; the whole text is pinned down by ParseDropRoundTrip and the MySqlOpCases drop lemmas |
| DropConstraint.PrimaryKeyDropIgnoresName | tests/test_mysql.py:107-112 | dropping the primary key succeeds and gives the same statement whatever constraint name is passed |
| DropConstraint.ParseDropRoundTrip | tests/test_mysql.py:100-119 | an emitted DROP statement reads back as its table, its kind and, for a foreign key or unique index, the constraint name |
| MySqlOpCases.RenameColumn | tests/test_mysql.py:11-16 | rename with only `existing_type` gives `ALTER TABLE t1 CHANGE c1 c2 INTEGER NULL` |
| MySqlOpCases.RenameColumnQuotesNeededOne | tests/test_mysql.py:18-24 | mixed-case names are each backtick-quoted |
| MySqlOpCases.RenameColumnQuotesNeededTwo | tests/test_mysql.py:26-32 | names with spaces are each backtick-quoted |
| MySqlOpCases.RenameColumnServerDefault | tests/test_mysql.py:34-40 | an existing string default is kept as `DEFAULT 'q'` |
| MySqlOpCases.RenameColumnCompiledServerDefault | tests/test_mysql.py:42-50 | an existing call default is kept as `DEFAULT utc_thing(CURRENT_TIMESTAMP)` |
| MySqlOpCases.RenameColumnAutoincrement | tests/test_mysql.py:52-58 | an existing autoincrement is kept as a trailing `AUTO_INCREMENT` |
| MySqlOpCases.ColumnAddAutoincrement | tests/test_mysql.py:60-66 | a requested autoincrement adds `AUTO_INCREMENT` |
| MySqlOpCases.ColumnRemoveAutoincrement | tests/test_mysql.py:68-75 | a request of false removes an existing autoincrement |
| MySqlOpCases.ColumnNullable | tests/test_mysql.py:77-82 | without a rename the old name is repeated, and `nullable=False` gives `NOT NULL` |
| MySqlOpCases.ColumnMultiAlter | tests/test_mysql.py:84-89 | a new type, `NOT NULL` and a new default in one statement, in that order |
| MySqlOpCases.ColumnAlterTypeRequired | tests/test_mysql.py:92-98 | no type gives the CommandError "All MySQL ALTER COLUMN operations require the existing type." |
| MySqlOpCases.DropForeignKey | tests/test_mysql.py:100-105 | `ALTER TABLE t1 DROP FOREIGN KEY f1` |
| MySqlOpCases.DropPrimaryKey | tests/test_mysql.py:107-112 | `ALTER TABLE t1 DROP PRIMARY KEY ` with its trailing space and without the name |
| MySqlOpCases.DropUnique | tests/test_mysql.py:114-119 | `ALTER TABLE t1 DROP INDEX f1` |
| MySqlOpCases.DropCheck | tests/test_mysql.py:121-127 | NotImplementedError "MySQL does not support CHECK constraints." |
| MySqlOpCases.DropUnknown | tests/test_mysql.py:129-136 | TypeError "'type' can be one of 'check', 'foreignkey', 'primary', 'unique', None" |
| MySqlOpCases.DropGenericConstraint | tests/test_mysql.py:138-145 | NotImplementedError "No generic 'DROP CONSTRAINT' in MySQL - please specify constraint type" |

## Left out

- `MySQLDefaultCompareTest` and `compare_server_default` (tests/test_mysql.py:147-218): they need a live MySQL server, table creation and reflection, and the comparison code is not part of this model.
- The test harness (`op_fixture`, `context.assert_`, `assert_raises_message`, `MigrationContext`, staging environments): fixture and I/O plumbing.
- The MySQL dialect implementation itself is not part of this model. The model follows what the tests assert about it.
- SQLAlchemy's type system and expression compiler: a type is an opaque DDL token (`INTEGER`). A default is a string, a raw SQL text, or a call tree. `current_timestamp` is the only built-in function modelled.
- Identifiers.Quote: reserved words and other characters that may call for quoting are not modelled. The tests show only upper-case letters and spaces. Backticks inside a name are not escaped.
- ServerDefaults.RenderDefault: a single quote inside a string default is not escaped.
- ServerDefaults.RenderExpr: `current_timestamp` called with arguments renders as the bare keyword, so its arguments are lost; the round trip covers it only without arguments.
- AlterColumn.AlterColumnReadsBack: the round-trip lemmas hold only for readable parts: no backtick in a table or column name; a bare name followed by a space or by the end of the text; a type token without a space; string defaults without a single quote; user function names of lower-case letters, digits and `_` only; `current_timestamp` called without arguments; and no raw SQL text, which has no inverse.
- AlterColumn.Resolve: no test covers a rename with no type. The model fails there too, as the message "All MySQL ALTER COLUMN operations require the existing type." says (tests/test_mysql.py:92-98).
- AlterColumn.ChangeColumnSql: DEFAULT is placed before AUTO_INCREMENT, in the clause order type, nullability, default, autoincrement. No test combines the two clauses, so their relative order is not pinned down by them.
- The `schema` argument, and the `existing_nullable` argument beyond the precedence rule, are not exercised by the tests. `schema` is not modelled.
