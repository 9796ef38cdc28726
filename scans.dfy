/** The scan routes of the backend: how a scan record becomes a row of the
    `scan_results` table and back, and the list, save, delete and clear
    handlers over that table. */
module ScansRoute {
  import opened Wrappers
  import opened Seqs
  import opened JsText
  import opened Catalogue
  import TensorFlow

  /** The `allPredictions` column as the driver hands it over: text still to
      be parsed, or a value the driver already parsed. */
  datatype PredictionsCell = Text(text: string) | Parsed(value: seq<Prediction>)

  /** A row of `scan_results`. `patientAge` is `None` for SQL NULL. */
  datatype Row = Row(
    id: string,
    userId: string,
    createdAt: string,
    patientFirstName: string,
    patientId: string,
    patientUsername: string,
    patientGender: Gender,
    patientAge: Option<int>,
    imageData: string,
    isValidSkinImage: bool,
    topPredictionClass: int,
    topPredictionProbability: real,
    allPredictions: PredictionsCell)

  /** What a handler sends: the HTTP status, the body's `success` and
      `message`, and for a listing the scans. */
  datatype Reply = Reply(status: int, success: bool, message: string, scans: seq<ScanResult>)

  function Status(status: int, success: bool, message: string): Reply {
    Reply(status, success, message, [])
  }

  /** `getClassName` of the scan routes. */
  function GetClassName(classId: int): (r: string)
    ensures 0 <= classId < 7 <==> r != "unknown"
  {
    match classId
      case 0 => "akiec"
      case 1 => "bcc"
      case 2 => "bkl"
      case 3 => "df"
      case 4 => "mel"
      case 5 => "nv"
      case 6 => "vasc"
      case _ => "unknown"
  }

  /** The backend and the browser name every class id alike, and agree with
      the catalogue. */
  lemma GetClassNameAgrees(classId: int)
    ensures GetClassName(classId) == TensorFlow.ClassName(classId)
    ensures Lookup(classId).Some? ==> GetClassName(classId) == Lookup(classId).value.code
  {
    CatalogueCodes();
  }

  /** `parseInt(age) || null`: NaN and 0 are both falsy and become NULL. */
  function StoreAge(age: string): (r: Option<int>)
    ensures r.Some? ==> r.value != 0 && ParseInt(age) == r
    ensures r.None? <==> ParseInt(age).None? || ParseInt(age) == Some(0)
  {
    match ParseInt(age)
      case None => None
      case Some(v) => if v == 0 then None else Some(v)
  }

  /** `scan.patientAge?.toString() || ''`. */
  function ReadAge(cell: Option<int>): (r: string)
    ensures cell.None? <==> r == ""
  {
    if cell.None? then "" else IntString(cell.value)
  }

  /** An age written the way `toString` writes a positive integer survives
      the round trip through the table. */
  lemma AgeRoundTrip(age: string)
    requires IsCanonicalPositive(age)
    ensures ReadAge(StoreAge(age)) == age
  {
    ParseIntCanonical(age);
  }

  /** Every non-zero integer survives as well, negative ones included. */
  lemma AgeRoundTripInt(n: int)
    requires n != 0
    ensures ReadAge(StoreAge(IntString(n))) == IntString(n)
  {
    ParseIntString(n);
  }

  /** The empty age, "0" and text that does not start with a number all come
      back as the empty string. */
  lemma AgeLost(age: string)
    requires age == "0" || ParseInt(age).None?
    ensures ReadAge(StoreAge(age)) == ""
  {
    if age == "0" {
      ParseIntString(0);
      assert IntString(0) == "0";
    }
  }

  lemma EmptyAgeLost()
    ensures ReadAge(StoreAge("")) == ""
  {
    assert TrimStart("") == "";
  }

  /** The parse step of the listing: text that `parse` (standing for
      `JSON.parse`) refuses becomes the empty list instead of an error, and an
      already parsed value passes through. */
  function ReadPredictions(cell: PredictionsCell, parse: string -> Option<seq<Prediction>>): (r: seq<Prediction>)
    ensures cell.Parsed? ==> r == cell.value
    ensures cell.Text? && parse(cell.text).None? ==> r == []
    ensures cell.Text? && parse(cell.text).Some? ==> r == parse(cell.text).value
  {
    match cell
      case Parsed(v) => v
      case Text(t) => match parse(t) case None => [] case Some(v) => v
  }

  /** The record the listing builds from one row. */
  function FromRow(row: Row, parse: string -> Option<seq<Prediction>>): (s: ScanResult)
    ensures s.id == row.id && s.timestamp == row.createdAt
    ensures s.topPrediction == Prediction(GetClassName(row.topPredictionClass), row.topPredictionProbability, row.topPredictionClass)
    ensures s.patientData.age == ReadAge(row.patientAge)
    ensures s.predictions == ReadPredictions(row.allPredictions, parse)
  {
    ScanResult(
      row.id,
      row.createdAt,
      PatientData(row.patientFirstName, row.patientId, row.patientUsername, row.patientGender, ReadAge(row.patientAge)),
      ReadPredictions(row.allPredictions, parse),
      row.imageData,
      row.isValidSkinImage,
      Prediction(GetClassName(row.topPredictionClass), row.topPredictionProbability, row.topPredictionClass))
  }

  /** The row the save handler inserts. The record's own id, timestamp and
      top class name are not stored; `stringify` stands for `JSON.stringify`. */
  function ToRow(scanId: string, userId: string, createdAt: string, scan: ScanResult,
                 stringify: seq<Prediction> -> string): (row: Row)
    ensures row.id == scanId && row.userId == userId && row.createdAt == createdAt
    ensures row.patientAge == StoreAge(scan.patientData.age)
    ensures row.allPredictions == Text(stringify(scan.predictions))
    ensures row.topPredictionClass == scan.topPrediction.classId
  {
    Row(scanId, userId, createdAt,
      scan.patientData.firstName, scan.patientData.patientId, scan.patientData.username,
      scan.patientData.gender, StoreAge(scan.patientData.age),
      scan.imageDataUrl, scan.isValidSkinImage,
      scan.topPrediction.classId, scan.topPrediction.probability,
      Text(stringify(scan.predictions)))
  }

  /** Saving a record and listing it gives the record back with the
      server's id and time, provided the predictions survive the JSON round
      trip, the age is empty or canonical, and the top prediction carries its
      class's name. */
  lemma SaveThenList(scanId: string, userId: string, createdAt: string, scan: ScanResult,
                     stringify: seq<Prediction> -> string, parse: string -> Option<seq<Prediction>>)
    requires parse(stringify(scan.predictions)) == Some(scan.predictions)
    requires scan.patientData.age == "" || IsCanonicalPositive(scan.patientData.age)
    requires scan.topPrediction.className == GetClassName(scan.topPrediction.classId)
    ensures FromRow(ToRow(scanId, userId, createdAt, scan, stringify), parse)
      == scan.(id := scanId, timestamp := createdAt)
  {
    if scan.patientData.age == "" {
      EmptyAgeLost();
    } else {
      AgeRoundTrip(scan.patientData.age);
    }
  }

  /** The listing maps every row, in the order the query returned them. */
  function FormatScans(rows: seq<Row>, parse: string -> Option<seq<Prediction>>): (r: seq<ScanResult>)
    ensures |r| == |rows|
    ensures forall i :: 0 <= i < |rows| ==> r[i] == FromRow(rows[i], parse)
  {
    seq(|rows|, i requires 0 <= i < |rows| => FromRow(rows[i], parse))
  }

  predicate OwnedBy(row: Row, userId: string) {
    row.userId == userId
  }

  predicate Targets(row: Row, id: string, userId: string) {
    row.id == id && row.userId == userId
  }

  /** The handlers over the `scan_results` table. `fails` says the database
      call raised; the handlers then answer 500 and change nothing. */
  class ScansRouter {
    var rows: seq<Row>

    constructor(rows: seq<Row>)
      ensures this.rows == rows
    {
      this.rows := rows;
    }

    /** `GET /api/scans` for the signed-in user. `order` stands for the
        query's `ORDER BY createdAt DESC`: some rearrangement of the rows. */
    method List(userId: string, parse: string -> Option<seq<Prediction>>, order: seq<Row> -> seq<Row>,
                fails: bool) returns (r: Reply)
      requires forall rs :: multiset(order(rs)) == multiset(rs)
      ensures fails ==> r == Status(500, false, "Failed to fetch scan history")
      ensures !fails ==>
        && r.status == 200 && r.success
        && r.scans == FormatScans(order(Filter(rows, (row: Row) => OwnedBy(row, userId))), parse)
        && |r.scans| == |Filter(rows, (row: Row) => OwnedBy(row, userId))|
    {
      if fails {
        return Status(500, false, "Failed to fetch scan history");
      }
      var mine := Filter(rows, (row: Row) => OwnedBy(row, userId));
      var sorted := order(mine);
      assert |sorted| == |mine| by {
        assert |multiset(sorted)| == |multiset(mine)|;
      }
      return Reply(200, true, "", FormatScans(sorted, parse));
    }

    /** `POST /api/scans`. */
    method Save(userId: string, scan: ScanResult, now: nat, createdAt: string,
                stringify: seq<Prediction> -> string, fails: bool) returns (r: Reply, scanId: Option<string>)
      modifies this
      ensures fails ==> r == Status(500, false, "Failed to save scan result") && scanId == None && rows == old(rows)
      ensures !fails ==>
        && scanId == Some("scan_" + NatString(now))
        && rows == old(rows) + [ToRow(scanId.value, userId, createdAt, scan, stringify)]
        && r == Status(201, true, "Scan saved successfully")
    {
      if fails {
        return Status(500, false, "Failed to save scan result"), None;
      }
      var id := "scan_" + NatString(now);
      rows := rows + [ToRow(id, userId, createdAt, scan, stringify)];
      return Status(201, true, "Scan saved successfully"), Some(id);
    }

    /** `DELETE /api/scans/:id`: only the signed-in user's row with that id
        goes; nothing matched means 404. */
    method Delete(userId: string, id: string, fails: bool) returns (r: Reply)
      modifies this
      ensures fails ==> r == Status(500, false, "Failed to delete scan") && rows == old(rows)
      ensures !fails ==> rows == Filter(old(rows), (row: Row) => !Targets(row, id, userId))
      ensures !fails ==> (r.status == 404 <==> forall i :: 0 <= i < |old(rows)| ==> !Targets(old(rows)[i], id, userId))
      ensures !fails && r.status == 404 ==> r == Status(404, false, "Scan not found") && rows == old(rows)
      ensures !fails && r.status != 404 ==> r == Status(200, true, "Scan deleted successfully")
    {
      if fails {
        return Status(500, false, "Failed to delete scan");
      }
      var kept := Filter(rows, (row: Row) => !Targets(row, id, userId));
      var affected := |rows| - |kept|;
      FilterKeepsAll(rows, (row: Row) => !Targets(row, id, userId));
      if affected == 0 {
        FilterAll(rows, (row: Row) => !Targets(row, id, userId));
        rows := kept;
        return Status(404, false, "Scan not found");
      }
      rows := kept;
      return Status(200, true, "Scan deleted successfully");
    }

    /** `DELETE /api/scans`: every row of the signed-in user goes, no other. */
    method Clear(userId: string, fails: bool) returns (r: Reply)
      modifies this
      ensures fails ==> r == Status(500, false, "Failed to clear scan history") && rows == old(rows)
      ensures !fails ==>
        && rows == Filter(old(rows), (row: Row) => !OwnedBy(row, userId))
        && r == Status(200, true, "All scans deleted successfully")
    {
      if fails {
        return Status(500, false, "Failed to clear scan history");
      }
      rows := Filter(rows, (row: Row) => !OwnedBy(row, userId));
      return Status(200, true, "All scans deleted successfully");
    }
  }

  /** After a clear the user has no rows left, and other users keep all of theirs. */
  lemma ClearRemovesOnlyOwnRows(rows: seq<Row>, userId: string, row: Row)
    ensures row in Filter(rows, (r: Row) => !OwnedBy(r, userId)) <==> row in rows && row.userId != userId
  {
    FilterMembership(rows, (r: Row) => !OwnedBy(r, userId), row);
  }
}
