/** The restore tool's archived-object record (tools/restore/meta/types/freezer.go) and the
    UPDATE statement it builds to move a record to a new restore status. */
module Freezer {

  import opened Wrappers

  /** common.Status is an integer enumeration. */
  type Status = int

  /** A point in time; its rendering in the TiDB layout is done by `formatTime`. */
  type Time = int

  /** The fields of Freezer that the statement reads. */
  datatype Freezer = Freezer(
    Name: string,
    BucketName: string,
    Location: string,
    Pool: string,
    OwnerId: string,
    Size: int,
    ObjectId: string,
    LastModifiedTime: Time,
    Etag: string,
    VersionId: string,
    Status: Status)

  /** One element of the Go []interface{} argument list. */
  datatype SqlArg = StatusArg(status: Status) | TextArg(text: string) | IntArg(n: int)

  datatype UpdateSql = UpdateSql(sql: string, args: seq<SqlArg>)

  /** The statement text of the source, written out column by column. */
  const UpdateStatementText: string :=
    "update restoreobjects set " +
    "status=?," + "lastmodifiedtime=?," + "location=?," + "pool=?," +
    "ownerid=?," + "size=?," + "objectid=?," + "etag=?" +
    " where " +
    "bucketname=? and " + "objectname=? and " + "version=? and " + "status=?"

  /** GetUpdateSql; the receiver is a value, so nothing about it can change. */
  function GetUpdateSql(o: Freezer, status: Status, formatTime: Time -> string): (r: UpdateSql)
    ensures |r.args| == 12 && r.args[0] == StatusArg(status) && r.args[11] == StatusArg(o.Status)
    ensures r.args[8..11] == [TextArg(o.BucketName), TextArg(o.Name), TextArg(o.VersionId)]
  {
    var lastModifiedTime := formatTime(o.LastModifiedTime);
    var sql := UpdateStatementText;
    var args := [StatusArg(status), TextArg(lastModifiedTime), TextArg(o.Location), TextArg(o.Pool),
      TextArg(o.OwnerId), IntArg(o.Size), TextArg(o.ObjectId), TextArg(o.Etag), TextArg(o.BucketName),
      TextArg(o.Name), TextArg(o.VersionId), StatusArg(o.Status)];
    UpdateSql(sql, args)
  }

  // ---------------------------------------------------------------------------
  // An independent description of the statement: its columns, and the value each column is bound to

  const SetColumns: seq<string> :=
    ["status", "lastmodifiedtime", "location", "pool", "ownerid", "size", "objectid", "etag"]

  const WhereColumns: seq<string> := ["bucketname", "objectname", "version", "status"]

  /** The pieces `c1=?<sep>`, `c2=?<sep>`, ..., `cn=?`. */
  function Assignments(cols: seq<string>, sep: string): seq<string>
  {
    if |cols| == 0 then []
    else if |cols| == 1 then [cols[0] + "=?"]
    else [cols[0] + "=?" + sep] + Assignments(cols[1..], sep)
  }

  /** `update <table> set <assignments> where <conditions>`, piece by piece. */
  function RenderPieces(table: string, setCols: seq<string>, whereCols: seq<string>): seq<string>
  {
    ["update " + table + " set "] + Assignments(setCols, ",") + [" where "] + Assignments(whereCols, " and ")
  }

  function RenderUpdate(table: string, setCols: seq<string>, whereCols: seq<string>): string
  {
    Join(RenderPieces(table, setCols, whereCols))
  }

  /** The new value of a SET column. */
  function SetValue(o: Freezer, status: Status, formatTime: Time -> string, col: string): SqlArg
  {
    match col
    case "status" => StatusArg(status)
    case "lastmodifiedtime" => TextArg(formatTime(o.LastModifiedTime))
    case "location" => TextArg(o.Location)
    case "pool" => TextArg(o.Pool)
    case "ownerid" => TextArg(o.OwnerId)
    case "size" => IntArg(o.Size)
    case "objectid" => TextArg(o.ObjectId)
    case "etag" => TextArg(o.Etag)
    case _ => TextArg("")
  }

  /** The value a WHERE column is compared against: the record's current one. */
  function WhereValue(o: Freezer, col: string): SqlArg
  {
    match col
    case "bucketname" => TextArg(o.BucketName)
    case "objectname" => TextArg(o.Name)
    case "version" => TextArg(o.VersionId)
    case "status" => StatusArg(o.Status)
    case _ => TextArg("")
  }

  /** The pieces, run together from the left. */
  function Join(pieces: seq<string>): string
  {
    if |pieces| == 0 then ""
    else if |pieces| == 1 then pieces[0]
    else Join(pieces[..|pieces| - 1]) + pieces[|pieces| - 1]
  }

  function CountPlaceholders(s: string): nat
  {
    if s == [] then 0 else (if s[0] == '?' then 1 else 0) + CountPlaceholders(s[1..])
  }

  // ---------------------------------------------------------------------------
  // Lemmas

  lemma {:induction false} CountPlaceholdersConcat(a: string, b: string)
    ensures CountPlaceholders(a + b) == CountPlaceholders(a) + CountPlaceholders(b)
  {
    if a == [] {
      assert a + b == b;
    } else {
      assert (a + b)[0] == a[0];
      assert (a + b)[1..] == a[1..] + b;
      CountPlaceholdersConcat(a[1..], b);
    }
  }

  lemma {:induction false} NoPlaceholders(s: string)
    requires '?' !in s
    ensures CountPlaceholders(s) == 0
  {
    if s != [] {
      assert s[0] in s;
      assert forall c :: c in s[1..] ==> c in s;
      NoPlaceholders(s[1..]);
    }
  }

  lemma {:induction false} JoinConcat(a: seq<string>, b: seq<string>)
    ensures Join(a + b) == Join(a) + Join(b)
    decreases |b|
  {
    if b == [] {
      assert a + b == a;
      assert Join(a) + "" == Join(a);
    } else if a == [] {
      assert a + b == b;
      assert "" + Join(b) == Join(b);
    } else if |b| == 1 {
      assert (a + b)[..|a + b| - 1] == a;
    } else {
      var b' := b[..|b| - 1];
      assert (a + b)[..|a + b| - 1] == a + b';
      JoinConcat(a, b');
      SeqAssoc(Join(a), Join(b'), b[|b| - 1]);
    }
  }

  /** A list of `col=?` assignments holds one placeholder per column. */
  lemma {:induction false} AssignmentsPlaceholders(cols: seq<string>, sep: string)
    requires '?' !in sep
    requires forall i :: 0 <= i < |cols| ==> '?' !in cols[i]
    ensures CountPlaceholders(Join(Assignments(cols, sep))) == |cols|
  {
    if |cols| >= 1 {
      NoPlaceholders(cols[0]);
      CountPlaceholdersConcat(cols[0], "=?");
      assert CountPlaceholders("=?") == 1;
      if |cols| > 1 {
        var head := cols[0] + "=?" + sep;
        NoPlaceholders(sep);
        CountPlaceholdersConcat(cols[0] + "=?", sep);
        JoinConcat([head], Assignments(cols[1..], sep));
        CountPlaceholdersConcat(head, Join(Assignments(cols[1..], sep)));
        AssignmentsPlaceholders(cols[1..], sep);
      }
    }
  }

  lemma {:induction false} JoinPlaceholders(a: seq<string>, b: seq<string>)
    ensures CountPlaceholders(Join(a + b)) == CountPlaceholders(Join(a)) + CountPlaceholders(Join(b))
  {
    JoinConcat(a, b);
    CountPlaceholdersConcat(Join(a), Join(b));
  }

  lemma HeadPlain(table: string)
    requires '?' !in table
    ensures CountPlaceholders(Join(["update " + table + " set "])) == 0
  {
    NoPlaceholders("update ");
    NoPlaceholders(" set ");
    NoPlaceholders(table);
    CountPlaceholdersConcat("update ", table);
    CountPlaceholdersConcat("update " + table, " set ");
  }

  /** Every column of a rendered statement contributes exactly one placeholder, and nothing else does. */
  lemma RenderPlaceholders(table: string, setCols: seq<string>, whereCols: seq<string>)
    requires '?' !in table
    requires forall i :: 0 <= i < |setCols| ==> '?' !in setCols[i]
    requires forall i :: 0 <= i < |whereCols| ==> '?' !in whereCols[i]
    ensures CountPlaceholders(RenderUpdate(table, setCols, whereCols)) == |setCols| + |whereCols|
  {
    var p0 := ["update " + table + " set "];
    var ps := Assignments(setCols, ",");
    var pw := Assignments(whereCols, " and ");
    JoinPlaceholders(p0 + ps + [" where "], pw);
    JoinPlaceholders(p0 + ps, [" where "]);
    JoinPlaceholders(p0, ps);
    HeadPlain(table);
    NoPlaceholders(" where ");
    AssignmentsPlaceholders(setCols, ",");
    AssignmentsPlaceholders(whereCols, " and ");
  }

  // The pieces of each clause, one column at a time.

  const StatementHead := "update restoreobjects set "

  const SetPieceList: seq<string> :=
    ["status=?,", "lastmodifiedtime=?,", "location=?,", "pool=?,", "ownerid=?,", "size=?,", "objectid=?,", "etag=?"]

  const WherePieceList: seq<string> := ["bucketname=? and ", "objectname=? and ", "version=? and ", "status=?"]

  const StatementPieces: seq<string> := [StatementHead] + SetPieceList + [" where "] + WherePieceList

  lemma JoinSnoc(a: seq<string>, x: string)
    requires a != []
    ensures Join(a + [x]) == Join(a) + x
  {
    assert (a + [x])[..|a + [x]| - 1] == a;
  }

  lemma SetClauseFromPieces()
    ensures Join([StatementHead] + SetPieceList) ==
      StatementHead + "status=?," + "lastmodifiedtime=?," + "location=?," + "pool=?," +
      "ownerid=?," + "size=?," + "objectid=?," + "etag=?"
  {
    var q := [StatementHead];
    JoinSnoc(q, "status=?,"); q := q + ["status=?,"];
    JoinSnoc(q, "lastmodifiedtime=?,"); q := q + ["lastmodifiedtime=?,"];
    JoinSnoc(q, "location=?,"); q := q + ["location=?,"];
    JoinSnoc(q, "pool=?,"); q := q + ["pool=?,"];
    JoinSnoc(q, "ownerid=?,"); q := q + ["ownerid=?,"];
    JoinSnoc(q, "size=?,"); q := q + ["size=?,"];
    JoinSnoc(q, "objectid=?,"); q := q + ["objectid=?,"];
    JoinSnoc(q, "etag=?"); q := q + ["etag=?"];
    assert q == [StatementHead] + SetPieceList;
  }

  lemma StatementFromPieces() ensures Join(StatementPieces) == UpdateStatementText
  {
    var q := [StatementHead] + SetPieceList;
    SetClauseFromPieces();
    JoinSnoc(q, " where "); q := q + [" where "];
    JoinSnoc(q, "bucketname=? and "); q := q + ["bucketname=? and "];
    JoinSnoc(q, "objectname=? and "); q := q + ["objectname=? and "];
    JoinSnoc(q, "version=? and "); q := q + ["version=? and "];
    JoinSnoc(q, "status=?"); q := q + ["status=?"];
    assert q == StatementPieces;
  }

  lemma SetPiecesTail()
    ensures Assignments(SetColumns[4..], ",") == SetPieceList[4..]
  {
    assert SetColumns[4..] == ["ownerid", "size", "objectid", "etag"];
    assert SetPieceList[4..] == ["ownerid=?,", "size=?,", "objectid=?,", "etag=?"];
    assert "etag" + "=?" == "etag=?";
    assert Assignments(["etag"], ",") == ["etag=?"];
    assert "objectid" + "=?" + "," == "objectid=?,";
    assert ["objectid", "etag"][1..] == ["etag"];
    assert Assignments(["objectid", "etag"], ",") == ["objectid=?,", "etag=?"];
    assert "size" + "=?" + "," == "size=?,";
    assert ["size", "objectid", "etag"][1..] == ["objectid", "etag"];
    assert Assignments(["size", "objectid", "etag"], ",") == ["size=?,", "objectid=?,", "etag=?"];
    assert "ownerid" + "=?" + "," == "ownerid=?,";
    assert ["ownerid", "size", "objectid", "etag"][1..] == ["size", "objectid", "etag"];
  }

  lemma SetPieces()
    ensures Assignments(SetColumns, ",") == SetPieceList
  {
    SetPiecesTail();
    var c := SetColumns;
    assert c[1..][1..][1..][1..] == SetColumns[4..];
    assert "pool" + "=?" + "," == "pool=?,";
    assert "location" + "=?" + "," == "location=?,";
    assert "lastmodifiedtime" + "=?" + "," == "lastmodifiedtime=?,";
    assert "status" + "=?" + "," == "status=?,";
  }

  lemma WherePieces()
    ensures Assignments(WhereColumns, " and ") == WherePieceList
  {
    var c := WhereColumns;
    assert c[1..][1..][1..] == ["status"];
    assert "status" + "=?" == "status=?";
    assert "version" + "=?" + " and " == "version=? and ";
    assert "objectname" + "=?" + " and " == "objectname=? and ";
    assert "bucketname" + "=?" + " and " == "bucketname=? and ";
  }

  /** The statement text is the columns rendered into an UPDATE of `restoreobjects`. */
  lemma UpdateSqlShape(o: Freezer, status: Status, formatTime: Time -> string)
    ensures GetUpdateSql(o, status, formatTime).sql == RenderUpdate("restoreobjects", SetColumns, WhereColumns)
  {
    StatementShape();
  }

  lemma StatementShape()
    ensures UpdateStatementText == RenderUpdate("restoreobjects", SetColumns, WhereColumns)
  {
    RenderedPieces();
    StatementFromPieces();
  }

  lemma RenderedPieces()
    ensures RenderPieces("restoreobjects", SetColumns, WhereColumns) == StatementPieces
  {
    SetPieces();
    WherePieces();
    assert "update " + "restoreobjects" + " set " == StatementHead;
  }

  lemma ColumnNamesPlain()
    ensures '?' !in "restoreobjects"
    ensures forall i :: 0 <= i < |SetColumns| ==> '?' !in SetColumns[i]
    ensures forall i :: 0 <= i < |WhereColumns| ==> '?' !in WhereColumns[i]
  {
  }

  /** The statement has exactly as many placeholders as there are arguments: all twelve are bound. */
  lemma UpdateSqlPlaceholders(o: Freezer, status: Status, formatTime: Time -> string)
    ensures CountPlaceholders(GetUpdateSql(o, status, formatTime).sql) == |GetUpdateSql(o, status, formatTime).args| == 12
  {
    StatementPlaceholders();
  }

  lemma StatementPlaceholders()
    ensures CountPlaceholders(UpdateStatementText) == |SetColumns| + |WhereColumns|
  {
    StatementShape();
    ColumnNamesPlain();
    RenderPlaceholders("restoreobjects", SetColumns, WhereColumns);
  }

  /** The arguments follow the placeholders in order: the SET columns' new values, then the WHERE columns'
      current ones, so the statement changes only the row holding the record with its old status. */
  lemma UpdateSqlArgsLineUp(o: Freezer, status: Status, formatTime: Time -> string)
    ensures var r := GetUpdateSql(o, status, formatTime);
      |r.args| == |SetColumns| + |WhereColumns| &&
      (forall i :: 0 <= i < |SetColumns| ==> r.args[i] == SetValue(o, status, formatTime, SetColumns[i])) &&
      (forall j :: 0 <= j < |WhereColumns| ==> r.args[|SetColumns| + j] == WhereValue(o, WhereColumns[j]))
  {
  }
}
