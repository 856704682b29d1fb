/**
 * The rain-garden numbering command: every place without a rain garden
 * number gets the next number, in ascending primary-key order, continuing
 * after the places that are already numbered.
 */
module RainGardenNumbers {
  import opened JsonValues
  import opened Strings

  /** A stored place: its primary key and its JSON data blob. */
  datatype PlaceRow = PlaceRow(pk: int, data: string)

  const NumberKey := "rain_garden_number"
  /** The text a numbered blob contains. */
  const NumberedMarker := "\"rain_garden_number\":"
  /** The text an imported blob with an empty number contains. */
  const EmptyNumberMarker := "\"rain_garden_number\": \"\""

  /** Places whose blob has no number (user-generated ones). */
  predicate LacksNumber(row: PlaceRow)
  {
    !Contains(row.data, NumberedMarker)
  }

  /** Places whose blob has an empty number (imported ones). */
  predicate HasEmptyNumber(row: PlaceRow)
  {
    Contains(row.data, EmptyNumberMarker)
  }

  predicate Unnumbered(row: PlaceRow)
  {
    LacksNumber(row) || HasEmptyNumber(row)
  }

  /** The two queries never select the same place, so chaining them repeats no place. */
  lemma QueriesDisjoint(row: PlaceRow)
    ensures !(LacksNumber(row) && HasEmptyNumber(row))
  {
    if HasEmptyNumber(row) {
      assert NumberedMarker + " \"\"" == EmptyNumberMarker;
      ContainsPrefixOf(row.data, NumberedMarker, " \"\"");
    }
  }

  /** The number of unnumbered places among `rows`. */
  function CountUnnumbered(rows: seq<PlaceRow>): (n: nat)
    ensures n <= |rows|
  {
    if rows == [] then 0
    else CountUnnumbered(rows[..|rows| - 1]) + (if Unnumbered(rows[|rows| - 1]) then 1 else 0)
  }

  /** The primary keys increase along the table (the `order_by('pk')` order). */
  predicate AscendingPks(rows: seq<PlaceRow>)
  {
    forall i, j :: 0 <= i < j < |rows| ==> rows[i].pk < rows[j].pk
  }

  /** The first number handed out: total places minus unnumbered ones, plus one. */
  function FirstNumber(rows: seq<PlaceRow>): (n: nat)
    ensures n == |rows| - CountUnnumbered(rows) + 1
  {
    |rows| - CountUnnumbered(rows) + 1
  }

  /** One place rewritten with `number`: load the blob, set the number as text, dump it. */
  function Renumber(row: PlaceRow, number: nat, codec: Codec): (r: Result<PlaceRow>)
    ensures r.Success? <==> LoadsDict(codec, row.data).Success?
    ensures r.Success? ==> (r.value.pk == row.pk &&
      r.value.data == codec.dumps(JDict(LoadsDict(codec, row.data).value[NumberKey := JStr(Str(number))])))
  {
    match LoadsDict(codec, row.data)
    case Failure(e) => Failure(e)
    case Success(blob) => Success(PlaceRow(row.pk, codec.dumps(JDict(blob[NumberKey := JStr(Str(number))]))))
  }

  /** The number the i-th place gets when it is unnumbered. */
  function NumberAt(rows: seq<PlaceRow>, i: int): (n: nat)
    requires 0 <= i <= |rows|
    ensures n == FirstNumber(rows) + CountUnnumbered(rows[..i])
  {
    FirstNumber(rows) + CountUnnumbered(rows[..i])
  }

  /** Command.handle on the place table, in primary-key order. */
  method UpdateNumbers(places: array<PlaceRow>, codec: Codec) returns (r: Result<()>)
    requires AscendingPks(places[..])
    modifies places
    ensures forall i :: 0 <= i < places.Length && !Unnumbered(old(places[i])) ==> places[i] == old(places[i])
    ensures r.Success? ==> forall i :: 0 <= i < places.Length && Unnumbered(old(places[i])) ==>
      Success(places[i]) == Renumber(old(places[i]), NumberAt(old(places[..]), i), codec)
    ensures r.Failure? ==> exists j :: (0 <= j < places.Length && Unnumbered(old(places[j])) &&
      LoadsDict(codec, old(places[j]).data).Failure? &&
      (forall i :: 0 <= i < j && Unnumbered(old(places[i])) ==>
         Success(places[i]) == Renumber(old(places[i]), NumberAt(old(places[..]), i), codec)) &&
      (forall i :: j <= i < places.Length ==> places[i] == old(places[i])))
  {
    ghost var rows := places[..];
    var next := places.Length - CountUnnumbered(places[..]) + 1;
    var i := 0;
    while i < places.Length
      invariant 0 <= i <= places.Length
      invariant next == NumberAt(rows, i)
      invariant forall k :: i <= k < places.Length ==> places[k] == rows[k]
      invariant forall k :: 0 <= k < i && !Unnumbered(rows[k]) ==> places[k] == rows[k]
      invariant forall k :: 0 <= k < i && Unnumbered(rows[k]) ==>
        Success(places[k]) == Renumber(rows[k], NumberAt(rows, k), codec)
    {
      assert rows[..i + 1][..i] == rows[..i];
      if Unnumbered(places[i]) {
        var renumbered := Renumber(places[i], next, codec);
        if renumbered.Failure? {
          return Failure(renumbered.error);
        }
        places[i] := renumbered.value;
        next := next + 1;
      }
      i := i + 1;
    }
    return Success(());
  }

  /** Different unnumbered places get different numbers, each at least the first one. */
  lemma {:induction false} NumbersDistinct(rows: seq<PlaceRow>, i: int, j: int)
    requires 0 <= i < j < |rows| && Unnumbered(rows[i])
    ensures NumberAt(rows, i) < NumberAt(rows, j)
    ensures NumberAt(rows, i) >= FirstNumber(rows)
  {
    CountGrows(rows, i, j);
  }

  lemma {:induction false} CountGrows(rows: seq<PlaceRow>, i: int, j: int)
    requires 0 <= i < j <= |rows| && Unnumbered(rows[i])
    ensures CountUnnumbered(rows[..i]) < CountUnnumbered(rows[..j])
    decreases j - i
  {
    assert rows[..j][..j - 1] == rows[..j - 1];
    if j - 1 > i {
      CountGrows(rows, i, j - 1);
    }
  }

  /** The last unnumbered place gets the number equal to the number of places. */
  lemma {:induction false} LastNumberIsPlaceCount(rows: seq<PlaceRow>)
    requires rows != [] && Unnumbered(rows[|rows| - 1])
    ensures NumberAt(rows, |rows| - 1) == |rows|
  {
    assert rows[..|rows|] == rows;
    assert rows[..|rows|][..|rows| - 1] == rows[..|rows| - 1];
  }

  /** With a faithful codec, a rewritten blob differs from the old one only in its number. */
  lemma RenumberChangesOnlyTheNumber(row: PlaceRow, number: nat, codec: Codec, blob: Dict)
    requires RoundTrips(codec) && LoadsDict(codec, row.data) == Success(blob)
    ensures Renumber(row, number, codec).Success?
    ensures var d := LoadsDict(codec, Renumber(row, number, codec).value.data);
      d.Success? && d.value.Keys == blob.Keys + {NumberKey} &&
      d.value[NumberKey] == JStr(Str(number)) &&
      forall k :: k in blob && k != NumberKey ==> d.value[k] == blob[k]
  {
    LoadsDumpsDict(codec, blob[NumberKey := JStr(Str(number))]);
  }
}
