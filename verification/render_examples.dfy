/**
  Concrete renders of the record shapes shown in the class's own doc-comments
  (classes/worksheet.php:17-93).
 */
module RenderExamples {
  import opened PhpArray
  import opened PhpValue
  import opened Records
  import opened Sink
  import opened Worksheet
  import opened RenderSheet

  const FirstName: Key := StrKey("first_name")
  const LastName: Key := StrKey("last_name")
  const FullName: Key := StrKey("full_name")

  /** Keyed records with a header: the labels go to row 1 typed as strings, and
      the data to row 2 untyped, because no column declares a type. */
  lemma KeyedRecordWithHeader()
    ensures Render(Sheet(
              [Entry(FirstName, Str("First Name")), Entry(LastName, Str("Last Name"))],
              [Entry(IntKey(0), Arr([Entry(LastName, Str("Hoover")), Entry(FirstName, Str("Martin"))]))],
              [], [], Bool(true), Bool(false)))
            == [ SetTyped(0, 1, Str("First Name"), TypeString),
                 SetTyped(1, 1, Str("Last Name"), TypeString),
                 SetUntyped(0, 2, Str("Martin")),
                 SetUntyped(1, 2, Str("Hoover")) ]
  {
    var cols := [Entry(FirstName, Str("First Name")), Entry(LastName, Str("Last Name"))];
    var rec := Arr([Entry(LastName, Str("Hoover")), Entry(FirstName, Str("Martin"))]);
    var s := Sheet(cols, [Entry(IntKey(0), rec)], [], [], Bool(true), Bool(false));
    RenderSplit(s);
    assert FirstName != LastName by { assert FirstName.s[0] != LastName.s[0]; }
    assert Find(cols, LastName) == Find(cols[1..], LastName);
    assert Find(rec.entries, FirstName) == Find(rec.entries[1..], FirstName);
    assert Get(cols, FirstName) == Str("First Name");
    assert Get(cols, LastName) == Str("Last Name");
    assert Extract(rec, FirstName) == Str("Martin");
    assert Extract(rec, LastName) == Str("Hoover");
    assert Header(s) == [SetTyped(0, 1, Str("First Name"), TypeString), SetTyped(1, 1, Str("Last Name"), TypeString)];
    assert DataRows(s.data, 2, cols, []) == SetRow(2, cols, [], rec, false) + DataRows([], 2, cols, []);
    assert DataRows(s.data, 2, cols, []) == [SetUntyped(0, 2, Str("Martin")), SetUntyped(1, 2, Str("Hoover"))];
    assert PostPass(cols, 0, 2, 1, [], Bool(false)) == [] + PostPass(cols[1..], 1, 2, 1, [], Bool(false));
    assert PostPass(cols[1..], 1, 2, 1, [], Bool(false)) == [] + PostPass(cols[2..], 2, 2, 1, [], Bool(false));
  }

  /** An object record: `full_name` comes from the method, the other column from
      the field; a declared type and a format apply to the typed column only,
      and the format range runs from row 1 to row 2 for one record. */
  lemma ObjectRecordWithFormat()
    ensures Render(Sheet(
              [Entry(FirstName, Str("First Name")), Entry(FullName, Str("Full name"))],
              [Entry(IntKey(0), Obj(map["full_name" := Str("Martin Hoover")],
                                    map[FirstName := Str("Martin"), FullName := Str("ignored")]))],
              [Entry(FullName, Str("@"))], [Entry(FullName, Str("s"))], Bool(false), Bool(true)))
            == [ SetUntyped(0, 1, Str("Martin")),
                 SetTyped(1, 1, Str("Martin Hoover"), Str("s")),
                 AutoSize(0),
                 Format(1, 1, 2, Str("@")),
                 AutoSize(1) ]
  {
    var cols := [Entry(FirstName, Str("First Name")), Entry(FullName, Str("Full name"))];
    var rec := Obj(map["full_name" := Str("Martin Hoover")], map[FirstName := Str("Martin"), FullName := Str("ignored")]);
    var formats := [Entry(FullName, Str("@"))];
    var types := [Entry(FullName, Str("s"))];
    var s := Sheet(cols, [Entry(IntKey(0), rec)], formats, types, Bool(false), Bool(true));
    RenderSplit(s);
    assert FirstName != FullName by { assert FirstName.s[1] != FullName.s[1]; }
    assert Find(types, FirstName) == Find(types[1..], FirstName);
    assert Find(formats, FirstName) == Find(formats[1..], FirstName);
    assert Get(types, FirstName) == Null && Get(types, FullName) == Str("s");
    assert Get(formats, FirstName) == Null && Get(formats, FullName) == Str("@");
    assert Extract(rec, FirstName) == Str("Martin");
    assert Extract(rec, FullName) == Str("Martin Hoover");
    assert Header(s) == [];
    assert DataRows(s.data, 1, cols, types) == SetRow(1, cols, types, rec, false) + DataRows([], 1, cols, types);
    assert DataRows(s.data, 1, cols, types) == [SetUntyped(0, 1, Str("Martin")), SetTyped(1, 1, Str("Martin Hoover"), Str("s"))];
    assert PostPass(cols, 0, 1, 1, formats, Bool(true)) == [AutoSize(0)] + PostPass(cols[1..], 1, 1, 1, formats, Bool(true));
    assert PostPass(cols[1..], 1, 1, 1, formats, Bool(true)) == [Format(1, 1, 2, Str("@")), AutoSize(1)] + PostPass(cols[2..], 2, 1, 1, formats, Bool(true));
  }
}
