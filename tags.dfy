/**
 * Tags: the colour validator of a tag, the printed name of a tag in its
 * parent hierarchy, and the PlaceTag rule that a tag may only be attached to
 * a place of the same dataset, enforced on every save.
 */
module Tags {
  import opened JsonValues
  import opened Strings

  // ---------------------------------------------------------------------
  // The colour pattern  ^#([A-Fa-f0-9]{6}|[A-Fa-f0-9]{3})$

  predicate IsHexDigit(c: char)
  {
    ('0' <= c <= '9') || ('a' <= c <= 'f') || ('A' <= c <= 'F')
  }

  /** A colour: "#" and then exactly three or exactly six hex digits. */
  predicate IsColor(s: string)
  {
    (|s| == 4 || |s| == 7) && s[0] == '#' && forall i :: 1 <= i < |s| ==> IsHexDigit(s[i])
  }

  /**
   * What the compiled pattern accepts: in Python `$` also matches just
   * before a newline that ends the text, so a colour followed by one "\n"
   * passes too.
   */
  predicate ColorPatternAsWritten(s: string)
    ensures IsColor(s) ==> ColorPatternAsWritten(s)
    ensures ColorPatternAsWritten(s) ==> (|s| == 4 || |s| == 5 || |s| == 7 || |s| == 8) && s[0] == '#'
  {
    IsColor(s) || (|s| > 0 && s[|s| - 1] == '\n' && IsColor(s[..|s| - 1]))
  }

  /** The validator as evidently intended (the pattern anchored with \Z). */
  function ValidateColor(s: string): (r: Result<string>)
    ensures r.Success? <==> IsColor(s)
    ensures r.Success? ==> r.value == s && s[0] == '#' && (|s| - 1) in {3, 6}
    ensures r.Failure? ==> r.error == ValidationError("Enter a valid color.")
  {
    if IsColor(s) then Success(s) else Failure(ValidationError("Enter a valid color."))
  }

  /** The written pattern lets a colour with a trailing newline through. */
  lemma TrailingNewlineColorAccepted()
    ensures ColorPatternAsWritten("#abc\n")
    ensures !IsColor("#abc\n")
    ensures ValidateColor("#abc\n").Failure?
  {
    assert "#abc\n"[..4] == "#abc";
  }

  /** The written pattern and the intended one agree on every text that does not end in a newline. */
  lemma ColorPatternsAgree(s: string)
    requires s == [] || s[|s| - 1] != '\n'
    ensures ColorPatternAsWritten(s) <==> ValidateColor(s).Success?
  {
  }

  /** For example: "#fff" and "#A0b1C2" are accepted; "#ffff", "fff" and "#ggg" are not. */
  lemma ColorExamples()
    ensures ValidateColor("#fff").Success? && ValidateColor("#A0b1C2").Success?
    ensures ValidateColor("#ffff").Failure? && ValidateColor("fff").Failure? && ValidateColor("#ggg").Failure?
  {
    assert !IsHexDigit("#ggg"[1]);
  }

  // ---------------------------------------------------------------------
  // Tag.__unicode__

  /** A tag and the chain of its ancestors. */
  datatype Tag = Tag(name: string, parent: Option<Tag>)

  /** The names from the root down to `t`. */
  function Lineage(t: Tag): (r: seq<string>)
    ensures r != [] && r[|r| - 1] == t.name
    ensures t.parent.None? ==> r == [t.name]
  {
    match t.parent
    case None => [t.name]
    case Some(p) => Lineage(p) + [t.name]
  }

  /** Tag.__unicode__: "<parent's string>:<name>", or the name for a root tag. */
  function TagString(t: Tag): (r: string)
    ensures r == Join(":", Lineage(t))
  {
    match t.parent
    case None => t.name
    case Some(p) =>
      JoinSnoc(":", Lineage(p), t.name);
      TagString(p) + ":" + t.name
  }

  /** A child's string extends its parent's with ":" and its own name. */
  lemma ChildTagString(parent: Tag, name: string)
    ensures TagString(Tag(name, Some(parent))) == TagString(parent) + ":" + name
    ensures EndsWith(TagString(Tag(name, Some(parent))), ":" + name)
  {
    var s := TagString(Tag(name, Some(parent)));
    assert s[|s| - |":" + name|..] == ":" + name;
  }

  // ---------------------------------------------------------------------
  // PlaceTag

  /**
   * A place tag, with the dataset ids of its tag and of its place; None is
   * a relation that is not set (for which `hasattr` is false).
   */
  datatype PlaceTag = PlaceTag(tagDataset: Option<int>, placeDataset: Option<int>, note: string)

  /** Tag and place both set and from different datasets. */
  predicate Mismatched(pt: PlaceTag)
  {
    pt.tagDataset.Some? && pt.placeDataset.Some? && pt.tagDataset.value != pt.placeDataset.value
  }

  /** PlaceTag.clean. */
  function Clean(pt: PlaceTag): (r: Result<PlaceTag>)
    ensures r.Failure? <==> Mismatched(pt)
    ensures r.Failure? ==> r.error.ValidationError?
    ensures r.Success? ==> r.value == pt
  {
    if pt.tagDataset.Some? && pt.placeDataset.Some? && pt.tagDataset.value != pt.placeDataset.value then
      Failure(ValidationError("The Tag must come from the same DataSet as the Place."))
    else Success(pt)
  }

  /** A tag from another dataset is refused whatever the note. */
  lemma OtherDatasetTagRefused(tagDataset: int, placeDataset: int, note: string)
    requires tagDataset != placeDataset
    ensures Clean(PlaceTag(Some(tagDataset), Some(placeDataset), note)).Failure?
    ensures Clean(PlaceTag(Some(placeDataset), Some(placeDataset), note)).Success?
  {
  }

  /** The stored place tags. */
  class PlaceTagTable {
    var rows: seq<PlaceTag>

    /** No stored place tag joins a tag and a place of different datasets. */
    ghost predicate Valid()
      reads this
    {
      forall i :: 0 <= i < |rows| ==> !Mismatched(rows[i])
    }

    constructor ()
      ensures rows == [] && Valid()
    {
      rows := [];
    }

    /** PlaceTag.save: clean first, and store only when clean passes. */
    method Save(pt: PlaceTag) returns (r: Result<PlaceTag>)
      requires Valid()
      modifies this
      ensures Valid()
      ensures r == Clean(pt)
      ensures r.Success? ==> rows == old(rows) + [pt]
      ensures r.Failure? ==> rows == old(rows)
    {
      r := Clean(pt);
      if r.Success? {
        rows := rows + [pt];
      }
    }
  }
}
