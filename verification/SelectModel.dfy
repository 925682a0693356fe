/** The builder of select statements. */
module SelectModel {

  const SELECT := "select "
  const FROM := " from "
  const WHERE := " where "
  const GROUP_BY := " group by "
  const HAVING := " having "
  const ORDER_BY := " order by "
  const LIMIT := " limit "
  const OFFSET := " offset "

  function JoinWith(ps: seq<string>, separator: string): string {
    if ps == [] then "" else if |ps| == 1 then ps[0] else JoinWith(ps[..|ps| - 1], separator) + separator + ps[|ps| - 1]
  }

  /** A clause that is left out when it has no parts. */
  function Clause(keyword: string, ps: seq<string>, separator: string): string {
    if ps == [] then "" else keyword + JoinWith(ps, separator)
  }

  function Suffix(keyword: string, part: string): string {
    if part == "" then "" else keyword + part
  }

  class SelectModel {
    var sql: string
    var selectColumns: seq<string>
    var groupbyColumns: seq<string>
    var tableName: string
    var whereCondition: seq<string>
    var havingCondition: seq<string>
    var orderBy: string
    var limit: string
    var offset: string

    constructor ()
      ensures sql == tableName == orderBy == limit == offset == ""
      ensures selectColumns == groupbyColumns == whereCondition == havingCondition == []
    {
      sql, tableName, orderBy, limit, offset := "", "", "", "", "";
      selectColumns, groupbyColumns, whereCondition, havingCondition := [], [], [], [];
    }

    method Select(columns: seq<string>)
      modifies this`selectColumns
      ensures selectColumns == old(selectColumns) + columns
    {
      var i := 0;
      while i < |columns|
        invariant i <= |columns| && selectColumns == old(selectColumns) + columns[..i]
      {
        selectColumns := selectColumns + [columns[i]];
        i := i + 1;
      }
    }

    method From(table: string)
      modifies this`tableName
      ensures tableName == if old(tableName) == "" then table else old(tableName) + ", " + table
    {
      if tableName == "" {
        tableName := table;
      } else {
        tableName := tableName + ", ";
        tableName := tableName + table;
      }
    }

    method Where(condition: string)
      modifies this`whereCondition
      ensures whereCondition == old(whereCondition) + [condition]
    {
      whereCondition := whereCondition + [condition];
    }

    method GroupBy(column: string)
      modifies this`groupbyColumns
      ensures groupbyColumns == old(groupbyColumns) + [column]
    {
      groupbyColumns := groupbyColumns + [column];
    }

    /** The loop that appends the parts of a clause with a separator after all but the last. */
    method Append(parts: seq<string>, separator: string)
      modifies this`sql
      ensures sql == old(sql) + JoinWith(parts, separator)
    {
      var i := 0;
      while i < |parts|
        invariant i <= |parts|
        invariant sql == old(sql) + JoinWith(parts[..i], separator) + if 0 < i < |parts| then separator else ""
      {
        assert parts[..i + 1][..i] == parts[..i];
        if i < |parts| - 1 {
          sql := sql + parts[i];
          sql := sql + separator;
        } else {
          sql := sql + parts[i];
        }
        i := i + 1;
      }
      assert parts[..i] == parts;
    }

    ghost function Rendered(): string
      reads this
    {
      SELECT + JoinWith(selectColumns, ", ") + FROM + tableName
      + Clause(WHERE, whereCondition, " ")
      + Clause(GROUP_BY, groupbyColumns, ", ")
      + Clause(HAVING, havingCondition, " ")
      + Suffix(ORDER_BY, orderBy) + Suffix(LIMIT, limit) + Suffix(OFFSET, offset)
    }

    method AppendClause(keyword: string, parts: seq<string>, separator: string)
      modifies this`sql
      ensures sql == old(sql) + Clause(keyword, parts, separator)
    {
      if |parts| > 0 {
        sql := sql + keyword;
        Append(parts, separator);
      }
    }

    method AppendSuffix(keyword: string, part: string)
      modifies this`sql
      ensures sql == old(sql) + Suffix(keyword, part)
    {
      if part != "" {
        sql := sql + keyword;
        sql := sql + part;
      }
    }

    method Str() returns (s: string)
      modifies this`sql
      ensures s == sql == Rendered()
    {
      hide JoinWith, Clause, Suffix, SELECT, FROM, WHERE, GROUP_BY, HAVING, ORDER_BY, LIMIT, OFFSET;
      sql := "";
      sql := sql + SELECT;
      assert sql == SELECT;
      Append(selectColumns, ", ");
      sql := sql + FROM;
      sql := sql + tableName;
      AppendClause(WHERE, whereCondition, " ");
      AppendClause(GROUP_BY, groupbyColumns, ", ");
      AppendClause(HAVING, havingCondition, " ");
      AppendSuffix(ORDER_BY, orderBy);
      AppendSuffix(LIMIT, limit);
      AppendSuffix(OFFSET, offset);
      s := sql;
    }
  }

  /** The statement with its keywords: each clause is left out when it has nothing to say. */
  lemma RenderedText(model: SelectModel)
    ensures model.Rendered()
            == "select " + JoinWith(model.selectColumns, ", ") + " from " + model.tableName
               + (if model.whereCondition == [] then "" else " where " + JoinWith(model.whereCondition, " "))
               + (if model.groupbyColumns == [] then "" else " group by " + JoinWith(model.groupbyColumns, ", "))
               + (if model.havingCondition == [] then "" else " having " + JoinWith(model.havingCondition, " "))
               + (if model.orderBy == "" then "" else " order by " + model.orderBy)
               + (if model.limit == "" then "" else " limit " + model.limit)
               + (if model.offset == "" then "" else " offset " + model.offset)
  {
    hide JoinWith;
  }
}
