/**
 * The rain-garden CSV import: how one spreadsheet row becomes a place's
 * attributes (cell normalisation, the address, the runoff sources, the
 * contributor and the place's visibility).
 */
module MigrateRainGardens {
  import opened JsonValues
  import opened Strings

  // ---------------------------------------------------------------------
  // validate

  /** validate: "NULL" and all-whitespace cells become "", other cells are kept. */
  function Validate(value: string): (r: string)
    ensures value == "NULL" || IsSpace(value) ==> r == ""
    ensures !(value == "NULL" || IsSpace(value)) ==> r == value
  {
    if value == "NULL" || IsSpace(value) then "" else value
  }

  /** Validating twice is validating once. */
  lemma ValidateIdempotent(value: string)
    ensures Validate(Validate(value)) == Validate(value)
    ensures Validate("") == "" && Validate("NULL") == "" && Validate(" \t") == ""
  {
    assert IsSpaceChar(" \t"[0]) && IsSpaceChar(" \t"[1]);
  }

  // ---------------------------------------------------------------------
  // The garden address

  const State := "WA"

  /** A part of the address that is kept: non-empty and not "NULL". */
  predicate AddressPart(x: string)
  {
    x != "" && x != "NULL"
  }

  function KeptParts(parts: seq<string>): (r: seq<string>)
    ensures |r| <= |parts|
  {
    if parts == [] then []
    else (if AddressPart(parts[0]) then [parts[0]] else []) + KeptParts(parts[1..])
  }

  /** The kept parts are exactly the parts that are non-empty and not "NULL". */
  lemma {:induction false} KeptPartsMembers(parts: seq<string>)
    ensures forall x :: x in KeptParts(parts) <==> x in parts && AddressPart(x)
  {
    if parts != [] {
      KeptPartsMembers(parts[1..]);
      assert forall x :: x in parts <==> x == parts[0] || x in parts[1..];
    }
  }

  /** The garden address: the kept parts of street, city, state and zip, joined by ", ". */
  function GardenAddress(street: string, city: string, zip: string): (r: string)
    ensures r == Join(", ", (if AddressPart(street) then [street] else []) + (if AddressPart(city) then [city] else []) +
                            [State] + (if AddressPart(zip) then [zip] else []))
  {
    KeptFour(street, city, zip);
    Join(", ", KeptParts([street, city, State, zip]))
  }

  /** The four address parts, filtered one by one. */
  lemma KeptFour(street: string, city: string, zip: string)
    ensures KeptParts([street, city, State, zip]) ==
      (if AddressPart(street) then [street] else []) + (if AddressPart(city) then [city] else []) +
      [State] + (if AddressPart(zip) then [zip] else [])
  {
    assert [zip][1..] == [];
    assert KeptParts([zip]) == (if AddressPart(zip) then [zip] else []);
    assert [State, zip][1..] == [zip];
    assert KeptParts([State, zip]) == [State] + KeptParts([zip]);
    assert [city, State, zip][1..] == [State, zip];
    assert KeptParts([city, State, zip]) == (if AddressPart(city) then [city] else []) + KeptParts([State, zip]);
    assert [street, city, State, zip][1..] == [city, State, zip];
    assert KeptParts([street, city, State, zip]) ==
      (if AddressPart(street) then [street] else []) + KeptParts([city, State, zip]);
  }

  /** A full address lists all four parts; missing parts are left out without empty separators. */
  lemma GardenAddressParts(street: string, city: string, zip: string)
    ensures AddressPart(street) && AddressPart(city) && AddressPart(zip) ==>
      GardenAddress(street, city, zip) == street + ", " + city + ", " + State + ", " + zip
    ensures !AddressPart(street) && !AddressPart(city) && !AddressPart(zip) ==>
      GardenAddress(street, city, zip) == State
    ensures !AddressPart(street) && AddressPart(city) && AddressPart(zip) ==>
      GardenAddress(street, city, zip) == city + ", " + State + ", " + zip
  {
    KeptFour(street, city, zip);
    if AddressPart(street) && AddressPart(city) && AddressPart(zip) {
      assert KeptParts([street, city, State, zip]) == [street, city, State, zip];
      assert [street, city, State, zip][1..] == [city, State, zip];
      assert [city, State, zip][1..] == [State, zip];
      assert [State, zip][1..] == [zip];
      assert Join(", ", [State, zip]) == State + ", " + zip;
      assert Join(", ", [city, State, zip]) == city + ", " + (State + ", " + zip);
      assert Join(", ", [street, city, State, zip]) == street + ", " + (city + ", " + (State + ", " + zip));
    }
    if !AddressPart(street) && !AddressPart(city) && !AddressPart(zip) {
      assert KeptParts([street, city, State, zip]) == [State];
    }
    if !AddressPart(street) && AddressPart(city) && AddressPart(zip) {
      assert KeptParts([street, city, State, zip]) == [city, State, zip];
      assert [city, State, zip][1..] == [State, zip];
      assert [State, zip][1..] == [zip];
      assert Join(", ", [State, zip]) == State + ", " + zip;
      assert Join(", ", [city, State, zip]) == city + ", " + (State + ", " + zip);
    }
  }

  // ---------------------------------------------------------------------
  // The sources

  /** The characters of the separator pattern `[, ]+`. */
  predicate IsSeparator(c: char)
  {
    c == ',' || c == ' '
  }

  /** The index of the first separator in `s`, or |s|. */
  function FirstSeparator(s: string): (i: nat)
    ensures i <= |s|
    ensures i < |s| ==> IsSeparator(s[i])
    ensures forall k :: 0 <= k < i ==> !IsSeparator(s[k])
  {
    if s == [] then 0
    else if IsSeparator(s[0]) then 0
    else 1 + FirstSeparator(s[1..])
  }

  /** The length of the run of separators `s` starts with. */
  function SeparatorRun(s: string): (n: nat)
    ensures n <= |s|
    ensures forall k :: 0 <= k < n ==> IsSeparator(s[k])
    ensures n < |s| ==> !IsSeparator(s[n])
  {
    if s == [] || !IsSeparator(s[0]) then 0
    else 1 + SeparatorRun(s[1..])
  }

  /** `re.split('[, ]+', s)`: the pieces between separator runs, "" at a leading or trailing run. */
  function Split(s: string): (pieces: seq<string>)
    ensures pieces != []
    ensures FirstSeparator(s) == |s| ==> pieces == [s]
    ensures |s| > 0 && IsSeparator(s[0]) ==> pieces[0] == ""
    decreases |s|
  {
    var i := FirstSeparator(s);
    if i == |s| then [s]
    else
      var n := SeparatorRun(s[i..]);
      [s[..i]] + Split(s[i..][n..])
  }

  /** The characters of `s` that are not separators, in order. */
  function WithoutSeparators(s: string): string
  {
    if s == [] then [] else (if IsSeparator(s[0]) then [] else [s[0]]) + WithoutSeparators(s[1..])
  }

  function Concat(pieces: seq<string>): string
  {
    if pieces == [] then [] else pieces[0] + Concat(pieces[1..])
  }

  lemma {:induction false} WithoutSeparatorsAppend(a: string, b: string)
    ensures WithoutSeparators(a + b) == WithoutSeparators(a) + WithoutSeparators(b)
  {
    if a == [] {
      assert a + b == b;
    } else {
      var head := if IsSeparator(a[0]) then [] else [a[0]];
      assert (a + b)[0] == a[0];
      assert (a + b)[1..] == a[1..] + b;
      WithoutSeparatorsAppend(a[1..], b);
      calc {
        WithoutSeparators(a + b);
        head + WithoutSeparators(a[1..] + b);
        head + (WithoutSeparators(a[1..]) + WithoutSeparators(b));
        (head + WithoutSeparators(a[1..])) + WithoutSeparators(b);
        WithoutSeparators(a) + WithoutSeparators(b);
      }
    }
  }

  lemma {:induction false} NoSeparators(s: string)
    requires forall k :: 0 <= k < |s| ==> !IsSeparator(s[k])
    ensures WithoutSeparators(s) == s
  {
    if s != [] {
      NoSeparators(s[1..]);
    }
  }

  lemma {:induction false} AllSeparators(s: string)
    requires forall k :: 0 <= k < |s| ==> IsSeparator(s[k])
    ensures WithoutSeparators(s) == []
  {
    if s != [] {
      AllSeparators(s[1..]);
    }
  }

  /** No piece of a split holds a separator. */
  lemma {:induction false} SplitPiecesClean(s: string)
    ensures forall p :: p in Split(s) ==> forall k :: 0 <= k < |p| ==> !IsSeparator(p[k])
    decreases |s|
  {
    var i := FirstSeparator(s);
    if i < |s| {
      var n := SeparatorRun(s[i..]);
      SplitPiecesClean(s[i..][n..]);
      assert Split(s) == [s[..i]] + Split(s[i..][n..]);
    }
  }

  lemma ConcatCons(x: string, rest: seq<string>)
    ensures Concat([x] + rest) == x + Concat(rest)
  {
    assert ([x] + rest)[0] == x;
    assert ([x] + rest)[1..] == rest;
  }

  /** Removing separators from a clean piece, a separator run and the rest keeps the piece. */
  lemma WithoutRun(piece: string, run: string, rest: string)
    requires forall k :: 0 <= k < |piece| ==> !IsSeparator(piece[k])
    requires forall k :: 0 <= k < |run| ==> IsSeparator(run[k])
    ensures WithoutSeparators(piece + (run + rest)) == piece + WithoutSeparators(rest)
  {
    AllSeparators(run);
    WithoutSeparatorsAppend(run, rest);
    var tail := WithoutSeparators(run + rest);
    assert tail == WithoutSeparators(rest);
    NoSeparators(piece);
    WithoutSeparatorsAppend(piece, run + rest);
  }

  /** One step of the split: the piece before the first separator run, then the split of what follows the run. */
  lemma SplitStep(s: string, i: nat, n: nat)
    requires i == FirstSeparator(s) < |s| && n == SeparatorRun(s[i..])
    ensures Split(s) == [s[..i]] + Split(s[i..][n..])
  {
  }

  /** The text is the clean piece, the separator run and the rest. */
  lemma SplitParts(s: string, i: nat, n: nat)
    requires i == FirstSeparator(s) < |s| && n == SeparatorRun(s[i..])
    ensures s == s[..i] + (s[i..][..n] + s[i..][n..])
    ensures forall k :: 0 <= k < |s[..i]| ==> !IsSeparator(s[..i][k])
    ensures forall k :: 0 <= k < |s[i..][..n]| ==> IsSeparator(s[i..][..n][k])
  {
    assert s[i..] == s[i..][..n] + s[i..][n..];
  }

  /** Together the pieces are the text with its separators removed. */
  lemma {:induction false} SplitConcat(s: string)
    ensures Concat(Split(s)) == WithoutSeparators(s)
    decreases |s|
  {
    var i := FirstSeparator(s);
    if i == |s| {
      assert s[..i] == s;
      NoSeparators(s);
      ConcatCons(s, []);
    } else {
      var n := SeparatorRun(s[i..]);
      var piece, run, rest := s[..i], s[i..][..n], s[i..][n..];
      SplitStep(s, i, n);
      SplitParts(s, i, n);
      SplitConcat(rest);
      ConcatCons(piece, Split(rest));
      WithoutRun(piece, run, rest);
    }
  }

  /** The table of known source words. */
  const PossibleSources: map<string, string> :=
    map["driveway" := "pavement", "street" := "pavement", "roof" := "roof",
        "pavement" := "pavement", "garden" := "other", "other" := "other"]

  /** The sources named by the tokens; unknown tokens are ignored. */
  function SourcesOf(tokens: seq<string>): (r: set<string>)
    ensures r <= {"pavement", "roof", "other"}
  {
    set t | t in tokens && t in PossibleSources :: PossibleSources[t]
  }

  /** The loop that adds each known token's source to the set. */
  method CollectSources(tokens: seq<string>) returns (sources: set<string>)
    ensures sources == SourcesOf(tokens)
  {
    sources := {};
    for i := 0 to |tokens|
      invariant sources == SourcesOf(tokens[..i])
    {
      assert tokens[..i + 1] == tokens[..i] + [tokens[i]];
      if tokens[i] in PossibleSources {
        sources := sources + {PossibleSources[tokens[i]]};
      }
    }
    assert tokens[..|tokens|] == tokens;
  }

  /** The sources of a "Primary Sources" cell: lower-cased, split, mapped. */
  function CellSources(cell: string): (r: set<string>)
    ensures r <= {"pavement", "roof", "other"}
  {
    SourcesOf(Split(Lower(cell)))
  }

  /** A source is reported exactly when one of the cell's words names it. */
  lemma CellSourcesNamed(cell: string, source: string)
    ensures source in CellSources(cell) <==>
      exists t :: t in Split(Lower(cell)) && t in PossibleSources && PossibleSources[t] == source
  {
  }

  // ---------------------------------------------------------------------
  // The contributor and the visibility

  /** The contributor's name and e-mail when both are given, else the steward's defaults. */
  function Contributor(name: string, email: string, stewardName: string, stewardEmail: string)
    : (r: (string, string))
    ensures name != "" && email != "" ==> r == (name, email)
    ensures name == "" || email == "" ==> r == (stewardName, stewardEmail)
  {
    if name != "" && email != "" then (name, email) else (stewardName, stewardEmail)
  }

  /** The garden is marked private in the spreadsheet. */
  predicate MarkedPrivate(remainPrivate: string)
  {
    remainPrivate == "YES"
  }

  /** The place's visible flag as written: the "Remain Private" test itself. */
  function VisibleAsWritten(remainPrivate: string): (r: bool)
    ensures r <==> MarkedPrivate(remainPrivate)
  {
    remainPrivate == "YES"
  }

  /** As written, a garden marked private becomes a visible place, and a public one an invisible place. */
  lemma PrivateGardenVisibleAsWritten()
    ensures MarkedPrivate("YES") && VisibleAsWritten("YES")
    ensures !MarkedPrivate("NO") && !VisibleAsWritten("NO")
  {
  }

  /** The visible flag as the comment beside it intends: not visible when marked private. */
  function Visible(remainPrivate: string): (r: bool)
    ensures r <==> !MarkedPrivate(remainPrivate)
  {
    remainPrivate != "YES"
  }

  // ---------------------------------------------------------------------
  // The row

  /** The attributes save_row stores for one spreadsheet row. */
  datatype Garden = Garden(
    address: string, size: string, designer: string, installer: string, contributingArea: string,
    sources: set<string>, owner: string, description: string, locationType: string, name: string,
    contributorEmail: string, contributorName: string, number: string, remainPrivate: bool,
    visible: bool)

  /** The columns save_row reads, in the order it reads them (the e-mail only after a contributor name). */
  function ColumnsRead(row: map<string, string>): seq<string>
  {
    ["Lat", "Long", "Remain Private", "Street Address", "City", "Zip Code", "Rain Garden Name",
     "Contributor's Name"] +
    (if "Contributor's Name" in row && row["Contributor's Name"] != "" then ["Email"] else []) +
    ["Rain Garden Number", "Rain garden Size (sq ft)", "Contributing Area (sq ft)", "Designer",
     "Installer", "Owner", "Description", "Primary Sources"]
  }

  /** The first column read that the row lacks. */
  function FirstMissing(columns: seq<string>, row: map<string, string>): (r: Option<string>)
    ensures r.None? <==> forall c :: c in columns ==> c in row
    ensures r.Some? ==> r.value in columns && r.value !in row
  {
    if columns == [] then None
    else if columns[0] !in row then Some(columns[0])
    else
      assert forall c :: c in columns[1..] ==> c in columns;
      assert forall c :: c in columns && c != columns[0] ==> c in columns[1..];
      FirstMissing(columns[1..], row)
  }

  /** The row has the attribute columns save_row reads. */
  predicate HasColumns(row: map<string, string>)
  {
    "Remain Private" in row && "Street Address" in row && "City" in row && "Zip Code" in row &&
    "Rain Garden Name" in row && "Contributor's Name" in row && "Rain Garden Number" in row &&
    "Rain garden Size (sq ft)" in row && "Contributing Area (sq ft)" in row && "Designer" in row &&
    "Installer" in row && "Owner" in row && "Description" in row && "Primary Sources" in row &&
    (row["Contributor's Name"] != "" ==> "Email" in row)
  }

  /** Every column save_row reads is in a row that lacks none of them. */
  lemma RowHasColumns(row: map<string, string>)
    requires FirstMissing(ColumnsRead(row), row).None?
    ensures HasColumns(row)
  {
    var cols := ColumnsRead(row);
    assert cols[2] == "Remain Private" && cols[3] == "Street Address" && cols[4] == "City";
    assert cols[5] == "Zip Code" && cols[6] == "Rain Garden Name" && cols[7] == "Contributor's Name";
    var k := |cols| - 8;
    assert cols[k] == "Rain Garden Number" && cols[k + 1] == "Rain garden Size (sq ft)";
    assert cols[k + 2] == "Contributing Area (sq ft)" && cols[k + 3] == "Designer";
    assert cols[k + 4] == "Installer" && cols[k + 5] == "Owner" && cols[k + 6] == "Description";
    assert cols[k + 7] == "Primary Sources";
    if row["Contributor's Name"] != "" {
      assert cols[8] == "Email";
    }
  }

  /**
   * save_row up to the database writes, as written: a KeyError for the first
   * missing column, else the garden, whose visible flag is the "Remain
   * Private" test itself.
   */
  function SaveRow(row: map<string, string>, stewardName: string, stewardEmail: string): (r: Result<Garden>)
    ensures r.Failure? <==> FirstMissing(ColumnsRead(row), row).Some?
    ensures r.Failure? ==> r.error == KeyError(FirstMissing(ColumnsRead(row), row).value)
    ensures r.Success? ==> HasColumns(row)
    ensures r.Success? && HasColumns(row) ==>
      var g := r.value;
      var name := row["Contributor's Name"];
      (g.contributorName, g.contributorEmail) ==
        Contributor(name, if name != "" then row["Email"] else "", stewardName, stewardEmail) &&
      g.visible == VisibleAsWritten(row["Remain Private"]) &&
      g.remainPrivate == MarkedPrivate(row["Remain Private"]) &&
      g.address == GardenAddress(row["Street Address"], row["City"], row["Zip Code"]) &&
      g.sources == CellSources(row["Primary Sources"]) &&
      g.size == Validate(row["Rain garden Size (sq ft)"]) &&
      g.contributingArea == Validate(row["Contributing Area (sq ft)"]) &&
      g.designer == Validate(row["Designer"]) && g.installer == Validate(row["Installer"]) &&
      g.owner == Validate(row["Owner"]) && g.description == row["Description"] &&
      g.name == row["Rain Garden Name"] && g.number == row["Rain Garden Number"] &&
      g.locationType == "raingarden"
  {
    match FirstMissing(ColumnsRead(row), row)
    case Some(c) => Failure(KeyError(c))
    case None =>
      RowHasColumns(row);
      var name := row["Contributor's Name"];
      var email := if name != "" then row["Email"] else "";
      var (username, contributorEmail) := Contributor(name, email, stewardName, stewardEmail);
      var remainPrivate := MarkedPrivate(row["Remain Private"]);
      Success(Garden(
        GardenAddress(row["Street Address"], row["City"], row["Zip Code"]),
        Validate(row["Rain garden Size (sq ft)"]), Validate(row["Designer"]), Validate(row["Installer"]),
        Validate(row["Contributing Area (sq ft)"]), CellSources(row["Primary Sources"]),
        Validate(row["Owner"]), row["Description"], "raingarden", row["Rain Garden Name"],
        contributorEmail, username, row["Rain Garden Number"], remainPrivate,
        VisibleAsWritten(row["Remain Private"])))
  }

  /** save_row with the visible flag the comment beside it intends; every other attribute is unchanged. */
  function SaveRowIntended(row: map<string, string>, stewardName: string, stewardEmail: string)
    : (r: Result<Garden>)
    ensures r.Failure? <==> SaveRow(row, stewardName, stewardEmail).Failure?
    ensures r.Failure? ==> r == SaveRow(row, stewardName, stewardEmail)
    ensures r.Success? ==> HasColumns(row)
    ensures r.Success? && HasColumns(row) ==>
      r.value.visible == !r.value.remainPrivate &&
      r.value.visible == Visible(row["Remain Private"]) &&
      r.value == SaveRow(row, stewardName, stewardEmail).value.(visible := r.value.visible)
  {
    match SaveRow(row, stewardName, stewardEmail)
    case Failure(e) => Failure(e)
    case Success(g) => Success(g.(visible := Visible(row["Remain Private"])))
  }

  /** On every row it accepts, save_row as written stores the opposite of the intended visible flag. */
  lemma VisibilityInverted(row: map<string, string>, stewardName: string, stewardEmail: string)
    requires SaveRow(row, stewardName, stewardEmail).Success?
    ensures SaveRow(row, stewardName, stewardEmail).value.visible ==
      !SaveRowIntended(row, stewardName, stewardEmail).value.visible
    ensures SaveRow(row, stewardName, stewardEmail).value.visible ==
      SaveRow(row, stewardName, stewardEmail).value.remainPrivate
  {
  }

  /** A row without a contributor is credited to the steward, whether or not it has an e-mail column. */
  lemma StewardCreditedWithoutContributor(row: map<string, string>, stewardName: string, stewardEmail: string)
    requires FirstMissing(ColumnsRead(row), row).None?
    requires row["Contributor's Name"] == ""
    ensures SaveRow(row, stewardName, stewardEmail).Success?
    ensures SaveRow(row, stewardName, stewardEmail).value.contributorName == stewardName
    ensures SaveRow(row, stewardName, stewardEmail).value.contributorEmail == stewardEmail
  {
  }
}
