/** SqlUtil.buildSelectSql: the sample query text, per dialect. */
module SqlUtil {
  import opened Wrappers
  import opened JavaText

  /**
   * buildSelectSql(typeName, tableName, columnNames, limit). Whether `typeName` is a SQL Server
   * dialect is decided by BizDataSourceTypeEnum and is passed in as `isSqlServer`.
   * A null or empty table name is an IllegalArgumentException; null or empty columns select "*";
   * SQL Server puts the limit after SELECT TOP, every other dialect after LIMIT.
   */
  function BuildSelectSql(isSqlServer: bool, tableName: Option<string>, columnNames: Option<string>, limit: int): (r: Result<string>)
    ensures r.Err? <==> tableName.None? || tableName.value == ""
    ensures r.Err? ==> r.error.IllegalArgument?
    ensures r.Ok? && isSqlServer ==>
      r.value == "SELECT TOP " + IntToString(limit) + " " + SelectList(columnNames) + " FROM " + tableName.value
    ensures r.Ok? && !isSqlServer ==>
      r.value == "SELECT " + SelectList(columnNames) + " FROM " + tableName.value + " LIMIT " + IntToString(limit)
  {
    if tableName.None? || tableName.value == "" then Err(IllegalArgument("Table name cannot be empty"))
    else
      var cols := SelectList(columnNames);
      if isSqlServer then Ok("SELECT TOP " + IntToString(limit) + " " + cols + " FROM " + tableName.value)
      else Ok("SELECT " + cols + " FROM " + tableName.value + " LIMIT " + IntToString(limit))
  }

  /** The select list: the given column text, or "*" when it is null or empty. */
  function SelectList(columnNames: Option<string>): (r: string)
    ensures r != ""
    ensures columnNames.Some? && columnNames.value != "" ==> r == columnNames.value
    ensures columnNames.None? || columnNames.value == "" ==> r == "*"
  {
    if columnNames.None? || columnNames.value == "" then "*" else columnNames.value
  }

  /**
   * The two dialect forms carry the same select list, table and limit: only the place of the
   * limit differs, so both start with "SELECT " and name the table after " FROM ".
   */
  lemma DialectFormsAgree(tableName: string, columnNames: Option<string>, limit: int)
    requires tableName != ""
    ensures var a := BuildSelectSql(true, Some(tableName), columnNames, limit);
            var b := BuildSelectSql(false, Some(tableName), columnNames, limit);
            a.Ok? && b.Ok? && StartsWith(a.value, "SELECT TOP ") && StartsWith(b.value, "SELECT ")
            && a.value[|a.value| - |tableName|..] == tableName
            && b.value[..|b.value| - |" LIMIT " + IntToString(limit)|] == "SELECT " + SelectList(columnNames) + " FROM " + tableName
  {
    var a := BuildSelectSql(true, Some(tableName), columnNames, limit).value;
    var b := BuildSelectSql(false, Some(tableName), columnNames, limit).value;
    assert a[..|"SELECT TOP "|] == "SELECT TOP ";
    assert b[..|"SELECT "|] == "SELECT ";
  }
}
