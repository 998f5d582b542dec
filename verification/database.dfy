/**
 * The mock database the backend runs against: `get_connection` always hands
 * out a `MockConnection`, whose cursors answer a query by looking for a few
 * keywords in it and setting `lastrowid` or the rows `fetchone` returns.
 */
module Database {
  import opened Wrappers
  import opened Text

  /** A fetched row: a tuple of column values. */
  type Row = seq<int>

  const InsertUsersKey := "INSERT INTO USERS"
  const SelectUserKey := "SELECT ID FROM USERS"
  const InsertInspectionsKey := "INSERT INTO INSPECTIONS"
  const InsertImagesKey := "INSERT INTO INSPECTION_IMAGES"

  /** The id every user insert reports, and the one every inspection insert reports. */
  const MockUserId := 123
  const MockInspectionId := 555

  /** `query.strip().upper()`: what the keywords are looked for in. */
  function NormalizeQuery(query: string): string
  {
    Upper(Strip(query))
  }

  /** What executing a normalised query does to a cursor. */
  datatype Effect = SetLastRowId(id: int) | ClearRows | NoEffect

  /** The keyword tests of `execute`, in the order it makes them. */
  function Dispatch(q: string): Effect
  {
    if Contains(q, InsertUsersKey) then SetLastRowId(MockUserId)
    else if Contains(q, SelectUserKey) then ClearRows
    else if Contains(q, InsertInspectionsKey) then SetLastRowId(MockInspectionId)
    else NoEffect
  }

  class MockCursor {
    const connection: MockConnection
    var lastRowId: int
    /** `_rows`: a list of rows, or None. */
    var rows: Option<seq<Row>>

    constructor (connection: MockConnection)
      ensures this.connection == connection
      ensures lastRowId == 1 && rows == Some([])
    {
      this.connection := connection;
      lastRowId := 1;
      rows := Some([]);
    }

    /** `execute`: the query parameters are only logged, so they are left out. */
    method Execute(query: string)
      modifies this
      ensures match Dispatch(NormalizeQuery(query))
        case SetLastRowId(id) => lastRowId == id && rows == old(rows)
        case ClearRows => lastRowId == old(lastRowId) && rows == None
        case NoEffect => lastRowId == old(lastRowId) && rows == old(rows)
    {
      var q := Upper(Strip(query));
      if Contains(q, InsertUsersKey) {
        lastRowId := MockUserId;
      } else if Contains(q, SelectUserKey) {
        rows := None;
      } else if Contains(q, InsertInspectionsKey) {
        lastRowId := MockInspectionId;
      } else if Contains(q, InsertImagesKey) {
        // recognised, and left without effect
      }
    }

    /** `fetchone`: the whole of `_rows`, as it stands. */
    method FetchOne() returns (r: Option<seq<Row>>)
      ensures r == rows
    {
      r := rows;
    }

    method Close()
    {
    }
  }

  class MockConnection {
    constructor ()
    {
    }

    /** Every call hands out a new cursor in its initial state. */
    method Cursor() returns (c: MockCursor)
      ensures fresh(c) && c.connection == this
      ensures c.lastRowId == 1 && c.rows == Some([])
    {
      c := new MockCursor(this);
    }

    /** Only logs; no cursor changes. */
    method Commit()
    {
    }

    method Close()
    {
    }
  }

  /** `get_connection`: always a new mock connection. */
  method GetConnection() returns (conn: MockConnection)
    ensures fresh(conn)
  {
    conn := new MockConnection();
  }

  /** Keyword tests ignore case and whitespace around the query. */
  lemma NormalizeIgnoresCaseAndPadding(left: string, q: string, right: string, q': string)
    requires AllSpace(left) && AllSpace(right)
    requires Upper(q) == Upper(q')
    ensures NormalizeQuery(left + q + right) == NormalizeQuery(q')
    ensures Dispatch(NormalizeQuery(left + q + right)) == Dispatch(NormalizeQuery(q'))
  {
    StripPadding(left, q, right);
    UpperStrip(q);
    UpperStrip(q');
  }

  /**
   * A query naming the image table is not taken for an inspection insert:
   * "INSERT INTO INSPECTION_IMAGES" does not contain "INSERT INTO INSPECTIONS".
   */
  lemma ImagesKeyIsNotInspectionsKey()
    ensures !Contains(InsertImagesKey, InsertInspectionsKey)
  {
    NotContainsByWindow(InsertImagesKey, InsertInspectionsKey, 20);
  }

  /** Nor is it taken for a user insert. */
  lemma ImagesKeyIsNotUsersKey()
    ensures !Contains(InsertImagesKey, InsertUsersKey)
  {
    NotContainsByWindow(InsertImagesKey, InsertUsersKey, 11);
  }

  /** Nor for the user lookup. */
  lemma ImagesKeyIsNotSelectKey()
    ensures !Contains(InsertImagesKey, SelectUserKey)
  {
    NotContainsByWindow(InsertImagesKey, SelectUserKey, 0);
  }

  /** So the image-table keyword alone leaves a cursor as it was. */
  lemma ImagesKeyHasNoEffect()
    ensures Dispatch(InsertImagesKey) == NoEffect
  {
    ImagesKeyIsNotUsersKey();
    ImagesKeyIsNotSelectKey();
    ImagesKeyIsNotInspectionsKey();
  }

  /**
   * Stripping never matters to the keyword tests: every keyword starts and ends
   * with a letter, so `strip` can neither cut into an occurrence nor make one.
   */
  lemma DispatchIgnoresStrip(q: string)
    ensures Dispatch(NormalizeQuery(q)) == Dispatch(Upper(q))
  {
    UpperStrip(q);
    assert InsertUsersKey[0] == 'I' && InsertUsersKey[|InsertUsersKey| - 1] == 'S';
    assert SelectUserKey[0] == 'S' && SelectUserKey[|SelectUserKey| - 1] == 'S';
    assert InsertInspectionsKey[0] == 'I' && InsertInspectionsKey[|InsertInspectionsKey| - 1] == 'S';
    ContainsStrip(Upper(q), InsertUsersKey);
    ContainsStrip(Upper(q), SelectUserKey);
    ContainsStrip(Upper(q), InsertInspectionsKey);
  }

  /** A query whose upper-cased text holds "INSERT INTO USERS" anywhere reports the mock user id. */
  lemma UserInsertSetsId(q: string)
    requires Contains(Upper(q), InsertUsersKey)
    ensures Dispatch(NormalizeQuery(q)) == SetLastRowId(MockUserId)
  {
    DispatchIgnoresStrip(q);
  }
}
