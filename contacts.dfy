/**
 * Contact lists: the rows of an uploaded CSV file, already parsed into
 * column-to-text maps, and the two ways the handlers read them. The upload
 * and campaign-creation handlers count valid and invalid rows; the dispatch
 * handler collects the valid rows as contacts to call.
 *
 * A row is valid when one of its phone columns (phone, phoneNumber, mobile,
 * cell) holds a non-empty value.
 */
module Contacts {
  import opened Util
  import FileModel

  type Row = map<string, string>

  /** `data[column]`: the text of a column, "" when the row does not have it. */
  function Field(row: Row, column: string): string
  {
    if column in row then row[column] else ""
  }

  /** `data.phone || data.phoneNumber || data.mobile || data.cell` */
  function PhoneOf(row: Row): (p: string)
    ensures p == "" <==>
      Field(row, "phone") == "" && Field(row, "phoneNumber") == ""
      && Field(row, "mobile") == "" && Field(row, "cell") == ""
    ensures p != "" ==>
      p == Field(row, "phone") || p == Field(row, "phoneNumber")
      || p == Field(row, "mobile") || p == Field(row, "cell")
    ensures Field(row, "phone") != "" ==> p == Field(row, "phone")
  {
    if Field(row, "phone") != "" then Field(row, "phone")
    else if Field(row, "phoneNumber") != "" then Field(row, "phoneNumber")
    else if Field(row, "mobile") != "" then Field(row, "mobile")
    else Field(row, "cell")
  }

  predicate HasPhone(row: Row)
  {
    PhoneOf(row) != ""
  }

  /** The valid rows, in file order. */
  function ValidRows(rows: seq<Row>): (valid: seq<Row>)
    ensures |valid| <= |rows|
    ensures forall k :: 0 <= k < |valid| ==> HasPhone(valid[k])
  {
    if rows == [] then []
    else
      var init := ValidRows(rows[..|rows| - 1]);
      if HasPhone(rows[|rows| - 1]) then init + [rows[|rows| - 1]] else init
  }

  /** The valid rows are exactly the rows with a phone, and no more than all rows. */
  lemma {:induction false} ValidRowsMembers(rows: seq<Row>)
    ensures |ValidRows(rows)| <= |rows|
    ensures forall r :: r in ValidRows(rows) <==> r in rows && HasPhone(r)
  {
    if rows != [] {
      var init := rows[..|rows| - 1];
      ValidRowsMembers(init);
      assert rows == init + [rows[|rows| - 1]];
    }
  }

  /** The valid rows of two files read one after the other. */
  lemma {:induction false} ValidRowsAppend(a: seq<Row>, b: seq<Row>)
    ensures ValidRows(a + b) == ValidRows(a) + ValidRows(b)
  {
    if b != [] {
      var init := b[..|b| - 1];
      ValidRowsAppend(a, init);
      assert (a + b)[..|a + b| - 1] == a + init;
    } else {
      assert a + b == a;
    }
  }

  /**
   * The row counting of the upload and campaign-creation handlers: every row
   * adds to the total, a row with a phone to the valid count and to the
   * results, any other row to the invalid count.
   */
  method CountContacts(rows: seq<Row>) returns (counts: FileModel.ContactCounts, results: seq<Row>)
    ensures results == ValidRows(rows)
    ensures counts.totalContacts == |rows|
    ensures counts.validContacts == |results|
    ensures counts.totalContacts == counts.validContacts + counts.invalidContacts
    ensures counts.invalidContacts >= 0
  {
    var total, valid, invalid := 0, 0, 0;
    results := [];
    var i := 0;
    while i < |rows|
      invariant 0 <= i <= |rows|
      invariant results == ValidRows(rows[..i])
      invariant total == i && valid == |results| && total == valid + invalid
    {
      assert rows[..i + 1][..i] == rows[..i];
      total := total + 1;
      if HasPhone(rows[i]) {
        valid := valid + 1;
        results := results + [rows[i]];
      } else {
        invalid := invalid + 1;
      }
      i := i + 1;
    }
    assert rows[..i] == rows;
    ValidRowsMembers(rows);
    counts := FileModel.ContactCounts(total, valid, invalid);
  }

  // ---------------------------------------------------------------------------
  // Contacts to call
  // ---------------------------------------------------------------------------

  datatype Contact = Contact(
    phoneNumber: string,
    name: string,
    lastName: string,
    email: string,
    company: string,
    data: Row)

  /** The contact built from a valid row; name falls back to firstName, the rest to "". */
  function ToContact(row: Row): (c: Contact)
    ensures c.phoneNumber == PhoneOf(row) && c.data == row
    ensures c.name == (if Field(row, "name") != "" then Field(row, "name") else Field(row, "firstName"))
  {
    Contact(PhoneOf(row),
            if Field(row, "name") != "" then Field(row, "name") else Field(row, "firstName"),
            Field(row, "lastName"), Field(row, "email"), Field(row, "company"), row)
  }

  /** The contacts of a file: one per valid row, in file order. */
  function ContactsOf(rows: seq<Row>): seq<Contact>
  {
    if rows == [] then []
    else
      var init := ContactsOf(rows[..|rows| - 1]);
      if HasPhone(rows[|rows| - 1]) then init + [ToContact(rows[|rows| - 1])] else init
  }

  /**
   * The dispatch handler calls exactly the rows the creation handler counted
   * as valid: one contact per valid row, built from that row, with a phone.
   */
  lemma {:induction false} ContactsAreValidRows(rows: seq<Row>)
    ensures |ContactsOf(rows)| == |ValidRows(rows)|
    ensures forall k :: 0 <= k < |ContactsOf(rows)| ==>
      ContactsOf(rows)[k] == ToContact(ValidRows(rows)[k]) && ContactsOf(rows)[k].phoneNumber != ""
  {
    if rows != [] {
      ContactsAreValidRows(rows[..|rows| - 1]);
    }
  }

  /** The dispatch handler's `data` callback: push a contact for every row that has a phone. */
  method ReadContacts(rows: seq<Row>) returns (contacts: seq<Contact>)
    ensures contacts == ContactsOf(rows)
    ensures |contacts| == |ValidRows(rows)|
  {
    contacts := [];
    var i := 0;
    while i < |rows|
      invariant 0 <= i <= |rows|
      invariant contacts == ContactsOf(rows[..i])
    {
      assert rows[..i + 1][..i] == rows[..i];
      var phoneNumber := PhoneOf(rows[i]);
      if phoneNumber != "" {
        contacts := contacts + [ToContact(rows[i])];
      }
      i := i + 1;
    }
    assert rows[..i] == rows;
    ContactsAreValidRows(rows);
  }
}
