/** The expectations of the MySQL operation tests, each stated as a lemma
    about the model: the exact statement, or the exact exception. */
module MySqlOpCases {
  import opened Results
  import opened Strings
  import opened Identifiers
  import opened ServerDefaults
  import opened AlterColumn
  import opened DropConstraint

  /** `func.utc_thing(func.current_timestamp())` */
  const UtcThingOfNow: SqlExpr := Call("utc_thing", [Call("current_timestamp", [])])

  /** The compiled default renders as the function call around the keyword. */
  lemma UtcThingOfNowRendering()
    ensures RenderDefault(ExprDefault(UtcThingOfNow))
      == "utc_thing" + "(" + "CURRENT_TIMESTAMP" + ")"
  {
    AppendEmpty(CurrentTimestampKeyword);
    assert RenderArgs([Call(CurrentTimestampName, [])]) == "CURRENT_TIMESTAMP";
  }

  /** A name holding an upper-case letter or a space is quoted. */
  lemma Quoted(name: string, i: nat)
    requires i < |name| && (IsUpper(name[i]) || name[i] == ' ')
    ensures Quote(name) == "`" + name + "`"
  {
  }

  // Each `...Text` lemma joins an expected statement from its words one append
  // at a time, starting from the longest expected text it extends: the solver
  // does not evaluate a long chain of literal appends in a single step.

  lemma RenameColumnText()
    ensures "ALTER TABLE " + "t1" + " CHANGE " + "c1" + " " + "c2" + " " + "INTEGER" + " " + "NULL"
      == "ALTER TABLE t1 CHANGE c1 c2 INTEGER NULL"
  {
    assert "ALTER TABLE " + "t1" == "ALTER TABLE t1";
    assert "ALTER TABLE t1" + " CHANGE " == "ALTER TABLE t1 CHANGE ";
    assert "ALTER TABLE t1 CHANGE " + "c1" == "ALTER TABLE t1 CHANGE c1";
    assert "ALTER TABLE t1 CHANGE c1" + " " == "ALTER TABLE t1 CHANGE c1 ";
    assert "ALTER TABLE t1 CHANGE c1 " + "c2" == "ALTER TABLE t1 CHANGE c1 c2";
    assert "ALTER TABLE t1 CHANGE c1 c2" + " " == "ALTER TABLE t1 CHANGE c1 c2 ";
    assert "ALTER TABLE t1 CHANGE c1 c2 " + "INTEGER" == "ALTER TABLE t1 CHANGE c1 c2 INTEGER";
    assert "ALTER TABLE t1 CHANGE c1 c2 INTEGER" + " " == "ALTER TABLE t1 CHANGE c1 c2 INTEGER ";
    assert "ALTER TABLE t1 CHANGE c1 c2 INTEGER " + "NULL" == "ALTER TABLE t1 CHANGE c1 c2 INTEGER NULL";
  }

  lemma RenameColumn()
    ensures AlterColumnSql(AlterOp("t1", "c1").(
        newColumnName := Some("c2"),
        existingType := Some(Integer)))
      == Success("ALTER TABLE t1 CHANGE c1 c2 INTEGER NULL")
  {
    assert Resolve(AlterOp("t1", "c1").(
          newColumnName := Some("c2"),
          existingType := Some(Integer)))
      == Success(ChangeColumn("t1", "c1", "c2", Integer, true, None, false));
    assert Quote("t1") == "t1" && Quote("c1") == "c1" && Quote("c2") == "c2";
    assert NullToken(true) == "NULL" && AutoincrementClause(false) == "";
    var cc := ChangeColumn("t1", "c1", "c2", Integer, true, None, false);
    ChangeColumnSqlInOrder(cc);
    var p := "ALTER TABLE " + "t1" + " CHANGE " + "c1" + " " + "c2" + " " + "INTEGER" + " " + "NULL";
    AppendEmpty(p);
    RenameColumnText();
  }

  lemma RenameColumnQuotesNeededOneNames()
    ensures Quote("MyTable") == "`MyTable`" && Quote("ColumnOne") == "`ColumnOne`" && Quote("ColumnTwo") == "`ColumnTwo`"
  {
    Quoted("MyTable", 0);
    Quoted("ColumnOne", 0);
    Quoted("ColumnTwo", 0);
    assert "`" + "MyTable" + "`" == "`MyTable`";
    assert "`" + "ColumnOne" + "`" == "`ColumnOne`";
    assert "`" + "ColumnTwo" + "`" == "`ColumnTwo`";
  }

  lemma RenameColumnQuotesNeededOneText()
    ensures "ALTER TABLE " + "`MyTable`" + " CHANGE " + "`ColumnOne`" + " " + "`ColumnTwo`" + " " + "INTEGER" + " " + "NULL"
      == "ALTER TABLE `MyTable` CHANGE `ColumnOne` `ColumnTwo` INTEGER NULL"
  {
    assert "ALTER TABLE " + "`MyTable`" == "ALTER TABLE `MyTable`";
    assert "ALTER TABLE `MyTable`" + " CHANGE " == "ALTER TABLE `MyTable` CHANGE ";
    assert "ALTER TABLE `MyTable` CHANGE " + "`ColumnOne`" == "ALTER TABLE `MyTable` CHANGE `ColumnOne`";
    assert "ALTER TABLE `MyTable` CHANGE `ColumnOne`" + " " == "ALTER TABLE `MyTable` CHANGE `ColumnOne` ";
    assert "ALTER TABLE `MyTable` CHANGE `ColumnOne` " + "`ColumnTwo`" == "ALTER TABLE `MyTable` CHANGE `ColumnOne` `ColumnTwo`";
    assert "ALTER TABLE `MyTable` CHANGE `ColumnOne` `ColumnTwo`" + " " == "ALTER TABLE `MyTable` CHANGE `ColumnOne` `ColumnTwo` ";
    assert "ALTER TABLE `MyTable` CHANGE `ColumnOne` `ColumnTwo` " + "INTEGER" == "ALTER TABLE `MyTable` CHANGE `ColumnOne` `ColumnTwo` INTEGER";
    assert "ALTER TABLE `MyTable` CHANGE `ColumnOne` `ColumnTwo` INTEGER" + " " == "ALTER TABLE `MyTable` CHANGE `ColumnOne` `ColumnTwo` INTEGER ";
    assert "ALTER TABLE `MyTable` CHANGE `ColumnOne` `ColumnTwo` INTEGER " + "NULL" == "ALTER TABLE `MyTable` CHANGE `ColumnOne` `ColumnTwo` INTEGER NULL";
  }

  lemma RenameColumnQuotesNeededOne()
    ensures AlterColumnSql(AlterOp("MyTable", "ColumnOne").(
        newColumnName := Some("ColumnTwo"),
        existingType := Some(Integer)))
      == Success("ALTER TABLE `MyTable` CHANGE `ColumnOne` `ColumnTwo` INTEGER NULL")
  {
    assert Resolve(AlterOp("MyTable", "ColumnOne").(
          newColumnName := Some("ColumnTwo"),
          existingType := Some(Integer)))
      == Success(ChangeColumn("MyTable", "ColumnOne", "ColumnTwo", Integer, true, None, false));
    RenameColumnQuotesNeededOneNames();
    assert NullToken(true) == "NULL" && AutoincrementClause(false) == "";
    var cc := ChangeColumn("MyTable", "ColumnOne", "ColumnTwo", Integer, true, None, false);
    ChangeColumnSqlInOrder(cc);
    var p := "ALTER TABLE " + "`MyTable`" + " CHANGE " + "`ColumnOne`" + " " + "`ColumnTwo`" + " " + "INTEGER" + " " + "NULL";
    AppendEmpty(p);
    RenameColumnQuotesNeededOneText();
  }

  lemma RenameColumnQuotesNeededTwoNames()
    ensures Quote("my table") == "`my table`" && Quote("column one") == "`column one`" && Quote("column two") == "`column two`"
  {
    Quoted("my table", 2);
    Quoted("column one", 6);
    Quoted("column two", 6);
    assert "`" + "my table" + "`" == "`my table`";
    assert "`" + "column one" + "`" == "`column one`";
    assert "`" + "column two" + "`" == "`column two`";
  }

  lemma RenameColumnQuotesNeededTwoText()
    ensures "ALTER TABLE " + "`my table`" + " CHANGE " + "`column one`" + " " + "`column two`" + " " + "INTEGER" + " " + "NULL"
      == "ALTER TABLE `my table` CHANGE `column one` `column two` INTEGER NULL"
  {
    assert "ALTER TABLE " + "`my table`" == "ALTER TABLE `my table`";
    assert "ALTER TABLE `my table`" + " CHANGE " == "ALTER TABLE `my table` CHANGE ";
    assert "ALTER TABLE `my table` CHANGE " + "`column one`" == "ALTER TABLE `my table` CHANGE `column one`";
    assert "ALTER TABLE `my table` CHANGE `column one`" + " " == "ALTER TABLE `my table` CHANGE `column one` ";
    assert "ALTER TABLE `my table` CHANGE `column one` " + "`column two`" == "ALTER TABLE `my table` CHANGE `column one` `column two`";
    assert "ALTER TABLE `my table` CHANGE `column one` `column two`" + " " == "ALTER TABLE `my table` CHANGE `column one` `column two` ";
    assert "ALTER TABLE `my table` CHANGE `column one` `column two` " + "INTEGER" == "ALTER TABLE `my table` CHANGE `column one` `column two` INTEGER";
    assert "ALTER TABLE `my table` CHANGE `column one` `column two` INTEGER" + " " == "ALTER TABLE `my table` CHANGE `column one` `column two` INTEGER ";
    assert "ALTER TABLE `my table` CHANGE `column one` `column two` INTEGER " + "NULL" == "ALTER TABLE `my table` CHANGE `column one` `column two` INTEGER NULL";
  }

  lemma RenameColumnQuotesNeededTwo()
    ensures AlterColumnSql(AlterOp("my table", "column one").(
        newColumnName := Some("column two"),
        existingType := Some(Integer)))
      == Success("ALTER TABLE `my table` CHANGE `column one` `column two` INTEGER NULL")
  {
    assert Resolve(AlterOp("my table", "column one").(
          newColumnName := Some("column two"),
          existingType := Some(Integer)))
      == Success(ChangeColumn("my table", "column one", "column two", Integer, true, None, false));
    RenameColumnQuotesNeededTwoNames();
    assert NullToken(true) == "NULL" && AutoincrementClause(false) == "";
    var cc := ChangeColumn("my table", "column one", "column two", Integer, true, None, false);
    ChangeColumnSqlInOrder(cc);
    var p := "ALTER TABLE " + "`my table`" + " CHANGE " + "`column one`" + " " + "`column two`" + " " + "INTEGER" + " " + "NULL";
    AppendEmpty(p);
    RenameColumnQuotesNeededTwoText();
  }

  lemma RenameColumnServerDefaultText()
    ensures "ALTER TABLE " + "t1" + " CHANGE " + "c1" + " " + "c2" + " " + "INTEGER" + " " + "NULL" + " DEFAULT 'q'"
      == "ALTER TABLE t1 CHANGE c1 c2 INTEGER NULL DEFAULT 'q'"
  {
    RenameColumnText();
    assert "ALTER TABLE t1 CHANGE c1 c2 INTEGER NULL" + " DEFAULT 'q'" == "ALTER TABLE t1 CHANGE c1 c2 INTEGER NULL DEFAULT 'q'";
  }

  lemma RenameColumnServerDefault()
    ensures AlterColumnSql(AlterOp("t1", "c1").(
        newColumnName := Some("c2"),
        existingType := Some(Integer),
        existingServerDefault := Some(StringDefault("q"))))
      == Success("ALTER TABLE t1 CHANGE c1 c2 INTEGER NULL DEFAULT 'q'")
  {
    assert Resolve(AlterOp("t1", "c1").(
          newColumnName := Some("c2"),
          existingType := Some(Integer),
          existingServerDefault := Some(StringDefault("q"))))
      == Success(ChangeColumn("t1", "c1", "c2", Integer, true, Some(StringDefault("q")), false));
    assert Quote("t1") == "t1" && Quote("c1") == "c1" && Quote("c2") == "c2";
    assert NullToken(true) == "NULL" && AutoincrementClause(false) == "";
    var cc := ChangeColumn("t1", "c1", "c2", Integer, true, Some(StringDefault("q")), false);
    ChangeColumnSqlInOrder(cc);
    var p := "ALTER TABLE " + "t1" + " CHANGE " + "c1" + " " + "c2" + " " + "INTEGER" + " " + "NULL";
    assert DefaultClause(cc.default) == " DEFAULT 'q'";
    AppendEmpty(p + " DEFAULT 'q'");
    RenameColumnServerDefaultText();
  }

  lemma RenameColumnCompiledServerDefaultText()
    ensures "ALTER TABLE " + "t1" + " CHANGE " + "c1" + " " + "c2" + " " + "INTEGER" + " " + "NULL" + " DEFAULT " + "utc_thing" + "(" + "CURRENT_TIMESTAMP" + ")"
      == "ALTER TABLE t1 CHANGE c1 c2 INTEGER NULL DEFAULT utc_thing(CURRENT_TIMESTAMP)"
  {
    RenameColumnText();
    assert "ALTER TABLE t1 CHANGE c1 c2 INTEGER NULL" + " DEFAULT " == "ALTER TABLE t1 CHANGE c1 c2 INTEGER NULL DEFAULT ";
    assert "ALTER TABLE t1 CHANGE c1 c2 INTEGER NULL DEFAULT " + "utc_thing" == "ALTER TABLE t1 CHANGE c1 c2 INTEGER NULL DEFAULT utc_thing";
    assert "ALTER TABLE t1 CHANGE c1 c2 INTEGER NULL DEFAULT utc_thing" + "(" == "ALTER TABLE t1 CHANGE c1 c2 INTEGER NULL DEFAULT utc_thing(";
    assert "ALTER TABLE t1 CHANGE c1 c2 INTEGER NULL DEFAULT utc_thing(" + "CURRENT_TIMESTAMP" == "ALTER TABLE t1 CHANGE c1 c2 INTEGER NULL DEFAULT utc_thing(CURRENT_TIMESTAMP";
    assert "ALTER TABLE t1 CHANGE c1 c2 INTEGER NULL DEFAULT utc_thing(CURRENT_TIMESTAMP" + ")" == "ALTER TABLE t1 CHANGE c1 c2 INTEGER NULL DEFAULT utc_thing(CURRENT_TIMESTAMP)";
  }

  lemma RenameColumnCompiledServerDefault()
    ensures AlterColumnSql(AlterOp("t1", "c1").(
        newColumnName := Some("c2"),
        existingType := Some(Integer),
        existingServerDefault := Some(ExprDefault(UtcThingOfNow))))
      == Success("ALTER TABLE t1 CHANGE c1 c2 INTEGER NULL DEFAULT utc_thing(CURRENT_TIMESTAMP)")
  {
    assert Resolve(AlterOp("t1", "c1").(
          newColumnName := Some("c2"),
          existingType := Some(Integer),
          existingServerDefault := Some(ExprDefault(UtcThingOfNow))))
      == Success(ChangeColumn("t1", "c1", "c2", Integer, true, Some(ExprDefault(UtcThingOfNow)), false));
    assert Quote("t1") == "t1" && Quote("c1") == "c1" && Quote("c2") == "c2";
    assert NullToken(true) == "NULL" && AutoincrementClause(false) == "";
    var cc := ChangeColumn("t1", "c1", "c2", Integer, true, Some(ExprDefault(UtcThingOfNow)), false);
    ChangeColumnSqlInOrder(cc);
    var p := "ALTER TABLE " + "t1" + " CHANGE " + "c1" + " " + "c2" + " " + "INTEGER" + " " + "NULL";
    UtcThingOfNowRendering();
    var r := "utc_thing" + "(" + "CURRENT_TIMESTAMP" + ")";
    AppendEmpty(p + DefaultClause(cc.default));
    AppendAssoc(p, " DEFAULT ", r);
    AppendAssoc(p + " DEFAULT ", "utc_thing" + "(" + "CURRENT_TIMESTAMP", ")");
    AppendAssoc(p + " DEFAULT ", "utc_thing" + "(", "CURRENT_TIMESTAMP");
    AppendAssoc(p + " DEFAULT ", "utc_thing", "(");
    RenameColumnCompiledServerDefaultText();
  }

  lemma RenameColumnAutoincrementText()
    ensures "ALTER TABLE " + "t1" + " CHANGE " + "c1" + " " + "c2" + " " + "INTEGER" + " " + "NULL" + " AUTO_INCREMENT"
      == "ALTER TABLE t1 CHANGE c1 c2 INTEGER NULL AUTO_INCREMENT"
  {
    RenameColumnText();
    assert "ALTER TABLE t1 CHANGE c1 c2 INTEGER NULL" + " AUTO_INCREMENT" == "ALTER TABLE t1 CHANGE c1 c2 INTEGER NULL AUTO_INCREMENT";
  }

  lemma RenameColumnAutoincrement()
    ensures AlterColumnSql(AlterOp("t1", "c1").(
        newColumnName := Some("c2"),
        existingType := Some(Integer),
        existingAutoincrement := Some(true)))
      == Success("ALTER TABLE t1 CHANGE c1 c2 INTEGER NULL AUTO_INCREMENT")
  {
    assert Resolve(AlterOp("t1", "c1").(
          newColumnName := Some("c2"),
          existingType := Some(Integer),
          existingAutoincrement := Some(true)))
      == Success(ChangeColumn("t1", "c1", "c2", Integer, true, None, true));
    assert Quote("t1") == "t1" && Quote("c1") == "c1" && Quote("c2") == "c2";
    assert NullToken(true) == "NULL" && AutoincrementClause(true) == " AUTO_INCREMENT";
    var cc := ChangeColumn("t1", "c1", "c2", Integer, true, None, true);
    ChangeColumnSqlInOrder(cc);
    var p := "ALTER TABLE " + "t1" + " CHANGE " + "c1" + " " + "c2" + " " + "INTEGER" + " " + "NULL";
    AppendEmpty(p);
    RenameColumnAutoincrementText();
  }

  lemma ColumnAddAutoincrement()
    ensures AlterColumnSql(AlterOp("t1", "c1").(
        newColumnName := Some("c2"),
        existingType := Some(Integer),
        autoincrement := Some(true)))
      == Success("ALTER TABLE t1 CHANGE c1 c2 INTEGER NULL AUTO_INCREMENT")
  {
    assert Resolve(AlterOp("t1", "c1").(
          newColumnName := Some("c2"),
          existingType := Some(Integer),
          autoincrement := Some(true)))
      == Success(ChangeColumn("t1", "c1", "c2", Integer, true, None, true));
    assert Quote("t1") == "t1" && Quote("c1") == "c1" && Quote("c2") == "c2";
    assert NullToken(true) == "NULL" && AutoincrementClause(true) == " AUTO_INCREMENT";
    var cc := ChangeColumn("t1", "c1", "c2", Integer, true, None, true);
    ChangeColumnSqlInOrder(cc);
    var p := "ALTER TABLE " + "t1" + " CHANGE " + "c1" + " " + "c2" + " " + "INTEGER" + " " + "NULL";
    AppendEmpty(p);
    RenameColumnAutoincrementText();
  }

  lemma ColumnRemoveAutoincrement()
    ensures AlterColumnSql(AlterOp("t1", "c1").(
        newColumnName := Some("c2"),
        existingType := Some(Integer),
        existingAutoincrement := Some(true),
        autoincrement := Some(false)))
      == Success("ALTER TABLE t1 CHANGE c1 c2 INTEGER NULL")
  {
    assert Resolve(AlterOp("t1", "c1").(
          newColumnName := Some("c2"),
          existingType := Some(Integer),
          existingAutoincrement := Some(true),
          autoincrement := Some(false)))
      == Success(ChangeColumn("t1", "c1", "c2", Integer, true, None, false));
    assert Quote("t1") == "t1" && Quote("c1") == "c1" && Quote("c2") == "c2";
    assert NullToken(true) == "NULL" && AutoincrementClause(false) == "";
    var cc := ChangeColumn("t1", "c1", "c2", Integer, true, None, false);
    ChangeColumnSqlInOrder(cc);
    var p := "ALTER TABLE " + "t1" + " CHANGE " + "c1" + " " + "c2" + " " + "INTEGER" + " " + "NULL";
    AppendEmpty(p);
    RenameColumnText();
  }

  lemma ColumnNullableText()
    ensures "ALTER TABLE " + "t1" + " CHANGE " + "c1" + " " + "c1" + " " + "INTEGER" + " " + "NOT NULL"
      == "ALTER TABLE t1 CHANGE c1 c1 INTEGER NOT NULL"
  {
    assert "ALTER TABLE " + "t1" == "ALTER TABLE t1";
    assert "ALTER TABLE t1" + " CHANGE " == "ALTER TABLE t1 CHANGE ";
    assert "ALTER TABLE t1 CHANGE " + "c1" == "ALTER TABLE t1 CHANGE c1";
    assert "ALTER TABLE t1 CHANGE c1" + " " == "ALTER TABLE t1 CHANGE c1 ";
    assert "ALTER TABLE t1 CHANGE c1 " + "c1" == "ALTER TABLE t1 CHANGE c1 c1";
    assert "ALTER TABLE t1 CHANGE c1 c1" + " " == "ALTER TABLE t1 CHANGE c1 c1 ";
    assert "ALTER TABLE t1 CHANGE c1 c1 " + "INTEGER" == "ALTER TABLE t1 CHANGE c1 c1 INTEGER";
    assert "ALTER TABLE t1 CHANGE c1 c1 INTEGER" + " " == "ALTER TABLE t1 CHANGE c1 c1 INTEGER ";
    assert "ALTER TABLE t1 CHANGE c1 c1 INTEGER " + "NOT NULL" == "ALTER TABLE t1 CHANGE c1 c1 INTEGER NOT NULL";
  }

  lemma ColumnNullable()
    ensures AlterColumnSql(AlterOp("t1", "c1").(
        nullable := Some(false),
        existingType := Some(Integer)))
      == Success("ALTER TABLE t1 CHANGE c1 c1 INTEGER NOT NULL")
  {
    assert Resolve(AlterOp("t1", "c1").(
          nullable := Some(false),
          existingType := Some(Integer)))
      == Success(ChangeColumn("t1", "c1", "c1", Integer, false, None, false));
    assert Quote("t1") == "t1" && Quote("c1") == "c1" && Quote("c1") == "c1";
    assert NullToken(false) == "NOT NULL" && AutoincrementClause(false) == "";
    var cc := ChangeColumn("t1", "c1", "c1", Integer, false, None, false);
    ChangeColumnSqlInOrder(cc);
    var p := "ALTER TABLE " + "t1" + " CHANGE " + "c1" + " " + "c1" + " " + "INTEGER" + " " + "NOT NULL";
    AppendEmpty(p);
    ColumnNullableText();
  }

  lemma ColumnMultiAlterText()
    ensures "ALTER TABLE " + "t1" + " CHANGE " + "c1" + " " + "c1" + " " + "INTEGER" + " " + "NOT NULL" + " DEFAULT 'q'"
      == "ALTER TABLE t1 CHANGE c1 c1 INTEGER NOT NULL DEFAULT 'q'"
  {
    ColumnNullableText();
    assert "ALTER TABLE t1 CHANGE c1 c1 INTEGER NOT NULL" + " DEFAULT 'q'" == "ALTER TABLE t1 CHANGE c1 c1 INTEGER NOT NULL DEFAULT 'q'";
  }

  lemma ColumnMultiAlter()
    ensures AlterColumnSql(AlterOp("t1", "c1").(
        nullable := Some(false),
        serverDefault := SetDefault(StringDefault("q")),
        newType := Some(Integer)))
      == Success("ALTER TABLE t1 CHANGE c1 c1 INTEGER NOT NULL DEFAULT 'q'")
  {
    assert Resolve(AlterOp("t1", "c1").(
          nullable := Some(false),
          serverDefault := SetDefault(StringDefault("q")),
          newType := Some(Integer)))
      == Success(ChangeColumn("t1", "c1", "c1", Integer, false, Some(StringDefault("q")), false));
    assert Quote("t1") == "t1" && Quote("c1") == "c1" && Quote("c1") == "c1";
    assert NullToken(false) == "NOT NULL" && AutoincrementClause(false) == "";
    var cc := ChangeColumn("t1", "c1", "c1", Integer, false, Some(StringDefault("q")), false);
    ChangeColumnSqlInOrder(cc);
    var p := "ALTER TABLE " + "t1" + " CHANGE " + "c1" + " " + "c1" + " " + "INTEGER" + " " + "NOT NULL";
    assert DefaultClause(cc.default) == " DEFAULT 'q'";
    AppendEmpty(p + " DEFAULT 'q'");
    ColumnMultiAlterText();
  }

  lemma ColumnAlterTypeRequired()
    ensures AlterColumnSql(AlterOp("t1", "c1").(nullable := Some(false),
        serverDefault := SetDefault(StringDefault("q"))))
      == Failure(DdlError(CommandError, "All MySQL ALTER COLUMN operations require the existing type."))
  {
  }

  lemma DropForeignKeyText()
    ensures "ALTER TABLE " + "t1" + " DROP " + "FOREIGN KEY " + "f1" == "ALTER TABLE t1 DROP FOREIGN KEY f1"
  {
    assert "ALTER TABLE " + "t1" == "ALTER TABLE t1";
    assert "ALTER TABLE t1" + " DROP " == "ALTER TABLE t1 DROP ";
    assert "ALTER TABLE t1 DROP " + "FOREIGN KEY " == "ALTER TABLE t1 DROP FOREIGN KEY ";
    assert "ALTER TABLE t1 DROP FOREIGN KEY " + "f1" == "ALTER TABLE t1 DROP FOREIGN KEY f1";
  }

  lemma DropForeignKey()
    ensures DropConstraintSql("f1", "t1", Some("foreignkey")) == Success("ALTER TABLE t1 DROP FOREIGN KEY f1")
  {
    assert KindOf(Some("foreignkey")) == Success(ForeignKey);
    assert Quote("t1") == "t1" && Quote("f1") == "f1";
    DropStatementInOrder("t1", "FOREIGN KEY " + Quote("f1"));
    AppendAssoc("ALTER TABLE " + "t1" + " DROP ", "FOREIGN KEY ", "f1");
    DropForeignKeyText();
  }

  lemma DropPrimaryKeyText()
    ensures "ALTER TABLE " + "t1" + " DROP " + "PRIMARY KEY " == "ALTER TABLE t1 DROP PRIMARY KEY "
  {
    assert "ALTER TABLE " + "t1" == "ALTER TABLE t1";
    assert "ALTER TABLE t1" + " DROP " == "ALTER TABLE t1 DROP ";
    assert "ALTER TABLE t1 DROP " + "PRIMARY KEY " == "ALTER TABLE t1 DROP PRIMARY KEY ";
  }

  /** The name is not part of the statement; the trailing space is. */
  lemma DropPrimaryKey()
    ensures DropConstraintSql("primary", "t1", Some("primary")) == Success("ALTER TABLE t1 DROP PRIMARY KEY ")
  {
    assert KindOf(Some("primary")) == Success(PrimaryKey);
    assert Quote("t1") == "t1";
    DropStatementInOrder("t1", "PRIMARY KEY ");
    DropPrimaryKeyText();
  }

  lemma DropUniqueText()
    ensures "ALTER TABLE " + "t1" + " DROP " + "INDEX " + "f1" == "ALTER TABLE t1 DROP INDEX f1"
  {
    assert "ALTER TABLE " + "t1" == "ALTER TABLE t1";
    assert "ALTER TABLE t1" + " DROP " == "ALTER TABLE t1 DROP ";
    assert "ALTER TABLE t1 DROP " + "INDEX " == "ALTER TABLE t1 DROP INDEX ";
    assert "ALTER TABLE t1 DROP INDEX " + "f1" == "ALTER TABLE t1 DROP INDEX f1";
  }

  lemma DropUnique()
    ensures DropConstraintSql("f1", "t1", Some("unique")) == Success("ALTER TABLE t1 DROP INDEX f1")
  {
    assert KindOf(Some("unique")) == Success(Unique);
    assert Quote("t1") == "t1" && Quote("f1") == "f1";
    DropStatementInOrder("t1", "INDEX " + Quote("f1"));
    AppendAssoc("ALTER TABLE " + "t1" + " DROP ", "INDEX ", "f1");
    DropUniqueText();
  }

  lemma DropCheck()
    ensures DropConstraintSql("f1", "t1", Some("check"))
      == Failure(DdlError(NotImplementedError, "MySQL does not support CHECK constraints."))
  {
  }

  lemma DropUnknown()
    ensures DropConstraintSql("f1", "t1", Some("typo"))
      == Failure(DdlError(TypeError, "'type' can be one of 'check', 'foreignkey', 'primary', 'unique', None"))
  {
  }

  lemma DropGenericConstraint()
    ensures DropConstraintSql("f1", "t1", None)
      == Failure(DdlError(NotImplementedError, "No generic 'DROP CONSTRAINT' in MySQL - please specify constraint type"))
  {
  }
}
