/**
 * The endpoints that talk to the database, as they run against the mock
 * connection: user lookup-or-create on login, inspection start, and the
 * image-record insert. Each opens a connection, takes a cursor, executes its
 * fixed queries and reads `lastrowid` or `fetchone`.
 *
 * The queries are written out exactly as the backend sends them; the lemmas
 * below work out, from the cursor's keyword tests, what each one does.
 */
module DbFlows {
  import opened Wrappers
  import opened Text
  import opened Database

  const SelectUserQuery := "SELECT id FROM users" + " WHERE phone=%s"
  const InsertUserQuery := "INSERT INTO users (phone)" + " VALUES (%s)"
  const InsertInspectionQuery := "INSERT INTO inspections" + " (user_id) VALUES (%s)"

  /** The image insert is a triple-quoted literal: each line starts after eight spaces. */
  const Indent := "\n        "
  const ImageTable := "INSERT INTO inspection_images"
  const ImageColumns := "(inspection_id, image_type, " + "image_path, similarity, label)"
  const ImageValues := "VALUES (%s,%s,%s,%s,%s)"
  const InsertImageBody := ImageTable + Indent + ImageColumns + Indent + ImageValues
  const InsertImageQuery := Indent + InsertImageBody + Indent

  /** The queries after `strip().upper()`. */
  const SelectUserNormal := "SELECT ID FROM USERS" + " WHERE PHONE=%S"
  const InsertUserNormal := "INSERT INTO USERS (PHONE)" + " VALUES (%S)"
  const InsertInspectionNormal := "INSERT INTO INSPECTIONS" + " (USER_ID) VALUES (%S)"
  const ImageTableUpper := "INSERT INTO INSPECTION_IMAGES"
  const ImageColumnsUpper := "(INSPECTION_ID, IMAGE_TYPE, " + "IMAGE_PATH, SIMILARITY, LABEL)"
  const ImageValuesUpper := "VALUES (%S,%S,%S,%S,%S)"
  const InsertImageNormal := ImageTableUpper + Indent + ImageColumnsUpper + Indent + ImageValuesUpper

  /** The phone number the demo login uses. */
  const DemoPhone := "+0000000000"

  const InvalidOtpMessage := "Invalid OTP"
  const DatabaseErrorMessage := "Database error"

  // What `execute` looks for keywords in, query by query: each literal piece
  // is upper-cased on its own, then the pieces are put together.

  lemma UpperSelectHead() ensures Upper("SELECT id FROM users") == "SELECT ID FROM USERS" {}
  lemma UpperSelectTail() ensures Upper(" WHERE phone=%s") == " WHERE PHONE=%S" {}
  lemma UpperUserHead() ensures Upper("INSERT INTO users (phone)") == "INSERT INTO USERS (PHONE)" {}
  lemma UpperUserTail() ensures Upper(" VALUES (%s)") == " VALUES (%S)" {}
  lemma UpperInspectionHead() ensures Upper("INSERT INTO inspections") == "INSERT INTO INSPECTIONS" {}
  lemma UpperInspectionTail() ensures Upper(" (user_id) VALUES (%s)") == " (USER_ID) VALUES (%S)" {}
  lemma UpperImageTable() ensures Upper(ImageTable) == ImageTableUpper {}
  lemma UpperColumnsHead() ensures Upper("(inspection_id, image_type, ") == "(INSPECTION_ID, IMAGE_TYPE, " {}
  lemma UpperColumnsTail() ensures Upper("image_path, similarity, label)") == "IMAGE_PATH, SIMILARITY, LABEL)" {}
  lemma UpperImageValues() ensures Upper(ImageValues) == ImageValuesUpper {}
  lemma UpperIndent() ensures Upper(Indent) == Indent {}

  lemma NormalizeSelectUser()
    ensures NormalizeQuery(SelectUserQuery) == SelectUserNormal
  {
    StripUnpadded(SelectUserQuery);
    UpperConcat("SELECT id FROM users", " WHERE phone=%s");
    UpperSelectHead();
    UpperSelectTail();
  }

  lemma NormalizeInsertUser()
    ensures NormalizeQuery(InsertUserQuery) == InsertUserNormal
  {
    StripUnpadded(InsertUserQuery);
    UpperConcat("INSERT INTO users (phone)", " VALUES (%s)");
    UpperUserHead();
    UpperUserTail();
  }

  lemma NormalizeInsertInspection()
    ensures NormalizeQuery(InsertInspectionQuery) == InsertInspectionNormal
  {
    StripUnpadded(InsertInspectionQuery);
    UpperConcat("INSERT INTO inspections", " (user_id) VALUES (%s)");
    UpperInspectionHead();
    UpperInspectionTail();
  }

  lemma UpperImageColumns()
    ensures Upper(ImageColumns) == ImageColumnsUpper
  {
    UpperConcat("(inspection_id, image_type, ", "image_path, similarity, label)");
    UpperColumnsHead();
    UpperColumnsTail();
  }

  lemma UpperImageBody()
    ensures Upper(InsertImageBody) == InsertImageNormal
  {
    var a := ImageTable + Indent;
    var b := a + ImageColumns;
    var c := b + Indent;
    UpperImageTable();
    UpperIndent();
    UpperImageColumns();
    UpperImageValues();
    UpperConcat(ImageTable, Indent);
    UpperConcat(a, ImageColumns);
    UpperConcat(b, Indent);
    UpperConcat(c, ImageValues);
  }

  /** The surrounding newline-and-indent of the image insert is stripped away. */
  lemma NormalizeInsertImage()
    ensures NormalizeQuery(InsertImageQuery) == InsertImageNormal
  {
    StripPadding(Indent, InsertImageBody, Indent);
    StripUnpadded(InsertImageBody);
    UpperImageBody();
  }

  // Which keywords the normalised queries lack.

  lemma SelectLacksUserInsert()
    ensures !Contains(SelectUserNormal, InsertUsersKey)
  {
    var a, b, w := "SELECT ID FROM USERS", " WHERE PHONE=%S", "INS";
    assert InsertUsersKey[0..3] == w;
    assert WindowFree(a, w) && WindowFree(b, w);
    assert WindowFree(a[|a| - 2..] + b[..2], w);
    WindowFreeConcat(a, b, w);
    NotContainsByWindow(a + b, InsertUsersKey, 0);
  }

  lemma InspectionLacksUserInsert()
    ensures !Contains(InsertInspectionNormal, InsertUsersKey)
  {
    var a, b, w := "INSERT INTO INSPECTIONS", " (USER_ID) VALUES (%S)", " US";
    assert InsertUsersKey[11..14] == w;
    assert WindowFree(a, w) && WindowFree(b, w);
    assert WindowFree(a[|a| - 2..] + b[..2], w);
    WindowFreeConcat(a, b, w);
    NotContainsByWindow(a + b, InsertUsersKey, 11);
  }

  lemma InspectionLacksUserSelect()
    ensures !Contains(InsertInspectionNormal, SelectUserKey)
  {
    var a, b, w := "INSERT INTO INSPECTIONS", " (USER_ID) VALUES (%S)", "SEL";
    assert SelectUserKey[0..3] == w;
    assert WindowFree(a, w) && WindowFree(b, w);
    assert WindowFree(a[|a| - 2..] + b[..2], w);
    WindowFreeConcat(a, b, w);
    NotContainsByWindow(a + b, SelectUserKey, 0);
  }

  /** The normalised image insert lacks a window when each piece and each seam between pieces does. */
  lemma ImageNormalWindowFree(w: string)
    requires |w| == 3
    requires WindowFree(ImageTableUpper, w) && WindowFree(Indent, w)
    requires WindowFree(ImageColumnsUpper, w) && WindowFree(ImageValuesUpper, w)
    requires WindowFree("ES\n ", w) && WindowFree("  (I", w)
    requires WindowFree("L)\n ", w) && WindowFree("  VA", w)
    ensures WindowFree(InsertImageNormal, w)
  {
    var a := ImageTableUpper + Indent;
    var b := a + ImageColumnsUpper;
    var c := b + Indent;
    assert ImageTableUpper[|ImageTableUpper| - 2..] + Indent[..2] == "ES\n ";
    assert a[|a| - 2..] + ImageColumnsUpper[..2] == "  (I";
    assert b[|b| - 2..] + Indent[..2] == "L)\n ";
    assert c[|c| - 2..] + ImageValuesUpper[..2] == "  VA";
    WindowFreeConcat(ImageTableUpper, Indent, w);
    WindowFreeConcat(a, ImageColumnsUpper, w);
    WindowFreeConcat(b, Indent, w);
    WindowFreeConcat(c, ImageValuesUpper, w);
  }

  lemma ImageColumnsWindowFree(w: string)
    requires |w| == 3
    requires WindowFree("(INSPECTION_ID, IMAGE_TYPE, ", w)
    requires WindowFree("IMAGE_PATH, SIMILARITY, LABEL)", w)
    requires WindowFree(", IM", w)
    ensures WindowFree(ImageColumnsUpper, w)
  {
    var a, b := "(INSPECTION_ID, IMAGE_TYPE, ", "IMAGE_PATH, SIMILARITY, LABEL)";
    assert a[|a| - 2..] + b[..2] == ", IM";
    WindowFreeConcat(a, b, w);
  }

  lemma ImageLacksUserInsert()
    ensures !Contains(InsertImageNormal, InsertUsersKey)
  {
    var w := " US";
    assert InsertUsersKey[11..14] == w;
    ImageColumnsWindowFree(w);
    ImageNormalWindowFree(w);
    NotContainsByWindow(InsertImageNormal, InsertUsersKey, 11);
  }

  lemma ImageLacksUserSelect()
    ensures !Contains(InsertImageNormal, SelectUserKey)
  {
    var w := "SEL";
    assert SelectUserKey[0..3] == w;
    ImageColumnsWindowFree(w);
    ImageNormalWindowFree(w);
    NotContainsByWindow(InsertImageNormal, SelectUserKey, 0);
  }

  lemma ImageLacksInspectionInsert()
    ensures !Contains(InsertImageNormal, InsertInspectionsKey)
  {
    var w := "ONS";
    assert InsertInspectionsKey[20..23] == w;
    ImageColumnsWindowFree(w);
    ImageNormalWindowFree(w);
    NotContainsByWindow(InsertImageNormal, InsertInspectionsKey, 20);
  }

  // What each query does to a cursor.

  /** The user lookup empties the rows, so the next `fetchone` gives None. */
  lemma SelectUserClearsRows()
    ensures Dispatch(NormalizeQuery(SelectUserQuery)) == ClearRows
  {
    NormalizeSelectUser();
    SelectLacksUserInsert();
  }

  /** The user insert reports the mock user id. */
  lemma InsertUserSetsId()
    ensures Dispatch(NormalizeQuery(InsertUserQuery)) == SetLastRowId(MockUserId)
  {
    NormalizeInsertUser();
  }

  /** The inspection insert reports the mock inspection id. */
  lemma InsertInspectionSetsId()
    ensures Dispatch(NormalizeQuery(InsertInspectionQuery)) == SetLastRowId(MockInspectionId)
  {
    NormalizeInsertInspection();
    InspectionLacksUserInsert();
    InspectionLacksUserSelect();
  }

  /**
   * The image insert matches none of the earlier keywords, "INSPECTION_IMAGES"
   * not being "INSPECTIONS", so it leaves the cursor as it was.
   */
  lemma InsertImageHasNoEffect()
    ensures Dispatch(NormalizeQuery(InsertImageQuery)) == NoEffect
  {
    NormalizeInsertImage();
    ImageLacksUserInsert();
    ImageLacksUserSelect();
    ImageLacksInspectionInsert();
  }

  // The endpoints.

  /** What a login endpoint answers. */
  datatype LoginResponse =
    | UserIdResponse(userId: int)
    | UserRowResponse(row: Row)
    | ErrorResponse(error: string)

  /**
   * The `else` branch of the login flows, `user_id = user[0]`: the first row
   * fetched. On an empty list that raises, and the handler turns the exception
   * into a database error.
   */
  function FirstRow(rows: seq<Row>): LoginResponse
  {
    if |rows| == 0 then ErrorResponse(DatabaseErrorMessage) else UserRowResponse(rows[0])
  }

  /**
   * The body shared by `verify_login` and `demo_login`: look the phone up, and
   * insert it when no row comes back. Against the mock the lookup always
   * clears the rows, so the insert path is taken and the new id is the mock
   * user id. The phone only travels in the query parameters, which the mock
   * ignores.
   */
  method LookupOrCreateUser(phone: string) returns (r: LoginResponse)
    ensures r == UserIdResponse(MockUserId)
  {
    var conn := GetConnection();
    var cur := conn.Cursor();
    SelectUserClearsRows();
    cur.Execute(SelectUserQuery);
    var user := cur.FetchOne();
    match user {
      case None =>
        InsertUserSetsId();
        cur.Execute(InsertUserQuery);
        conn.Commit();
        r := UserIdResponse(cur.lastRowId);
      case Some(rows) =>
        r := FirstRow(rows);
    }
    cur.Close();
    conn.Close();
  }

  /** `verify_login`: a failed one-time-password check answers "Invalid OTP" before any query. */
  method VerifyLogin(phone: string, otpValid: bool) returns (r: LoginResponse)
    ensures otpValid ==> r == UserIdResponse(MockUserId)
    ensures !otpValid ==> r == ErrorResponse(InvalidOtpMessage)
  {
    if !otpValid {
      return ErrorResponse(InvalidOtpMessage);
    }
    r := LookupOrCreateUser(phone);
  }

  /** `demo_login`: the lookup-or-create flow for the fixed demo phone. */
  method DemoLogin() returns (r: LoginResponse)
    ensures r == UserIdResponse(MockUserId)
  {
    r := LookupOrCreateUser(DemoPhone);
  }

  /** `start_inspection`: the new inspection's id is the mock inspection id. */
  method StartInspection(userId: int) returns (inspectionId: int)
    ensures inspectionId == MockInspectionId
  {
    var conn := GetConnection();
    var cur := conn.Cursor();
    InsertInspectionSetsId();
    cur.Execute(InsertInspectionQuery);
    conn.Commit();
    inspectionId := cur.lastRowId;
    cur.Close();
    conn.Close();
  }
}
