/**
 * The Django admin's own rules: the slug a cloned dataset gets, the owner a
 * dataset saved by a non-superuser gets, the owner scoping of every admin
 * list, the type column of actions and the column order of submissions.
 */
module Admin {
  import opened JsonValues
  import opened Strings
  import opened CoreSerializers

  // ---------------------------------------------------------------------
  // DataSetAdmin.clone_dataset

  /** `'-'.join([slug, str(n)])`. */
  function CloneCandidate(slug: string, n: nat): (r: string)
    ensures r == slug + "-" + Str(n)
  {
    Join("-", [slug, Str(n)])
  }

  /** Different uniquifiers give different candidates. */
  lemma CandidatesDiffer(slug: string, m: nat, n: nat)
    requires m != n
    ensures CloneCandidate(slug, m) != CloneCandidate(slug, n)
  {
    if CloneCandidate(slug, m) == CloneCandidate(slug, n) {
      assert CloneCandidate(slug, m)[|slug| + 1..] == Str(m);
      assert CloneCandidate(slug, n)[|slug| + 1..] == Str(n);
      StrInjective(m, n);
    }
  }

  /** The slugs of the datasets with the same owner. */
  function SiblingSlugs(datasets: seq<(Option<string>, string)>, owner: Option<string>): (r: set<string>)
    ensures forall i :: 0 <= i < |datasets| && datasets[i].0 == owner ==> datasets[i].1 in r
    ensures forall x :: x in r ==> exists i :: 0 <= i < |datasets| && datasets[i].0 == owner && datasets[i].1 == x
  {
    set i | 0 <= i < |datasets| && datasets[i].0 == owner :: datasets[i].1
  }

  /**
   * The uniquifier search: the first n from 2 on whose candidate is not a
   * sibling's slug.
   */
  method UniqueCloneSlug(slug: string, slugs: set<string>) returns (unique: string, n: nat)
    ensures n >= 2 && unique == slug + "-" + Str(n)
    ensures unique !in slugs
    ensures forall m: nat :: 2 <= m < n ==> CloneCandidate(slug, m) in slugs
  {
    n := 2;
    ghost var seen: set<string> := {};
    unique := CloneCandidate(slug, n);
    while unique in slugs
      invariant n >= 2 && unique == CloneCandidate(slug, n)
      invariant seen <= slugs && |seen| == n - 2
      invariant forall m: nat :: 2 <= m < n ==> CloneCandidate(slug, m) in seen
      invariant forall x :: x in seen ==> exists m: nat :: 2 <= m < n && x == CloneCandidate(slug, m)
      decreases |slugs| - |seen|
    {
      assert unique !in seen by {
        if unique in seen {
          var m: nat :| 2 <= m < n && unique == CloneCandidate(slug, m);
          CandidatesDiffer(slug, m, n);
        }
      }
      seen := seen + {unique};
      assert |seen| <= |slugs| by {
        SubsetSize(seen, slugs);
      }
      n := n + 1;
      unique := CloneCandidate(slug, n);
    }
  }

  lemma SubsetSize(a: set<string>, b: set<string>)
    requires a <= b
    ensures |a| <= |b|
  {
    assert b == a + (b - a);
  }

  /**
   * DataSetAdmin.clone_dataset: the clone's slug, slug-n for the first n
   * from 2 on that no dataset of the same owner uses.
   */
  method CloneSlug(slug: string, owner: Option<string>, datasets: seq<(Option<string>, string)>)
    returns (unique: string)
    ensures forall i :: 0 <= i < |datasets| && datasets[i].0 == owner ==> datasets[i].1 != unique
    ensures exists n: nat :: (n >= 2 && unique == CloneCandidate(slug, n) &&
      forall m: nat :: 2 <= m < n ==> CloneCandidate(slug, m) in SiblingSlugs(datasets, owner))
  {
    var n;
    unique, n := UniqueCloneSlug(slug, SiblingSlugs(datasets, owner));
    assert unique == CloneCandidate(slug, n);
  }

  /** For example, the first clone of an owner's only dataset gets the slug slug-2. */
  method FirstCloneOfLoneDataset(slug: string, owner: Option<string>) returns (unique: string)
    ensures unique == slug + "-2"
  {
    var datasets := [(owner, slug)];
    unique := CloneSlug(slug, owner, datasets);
    var n: nat :| n >= 2 && unique == CloneCandidate(slug, n) &&
      forall m: nat :: 2 <= m < n ==> CloneCandidate(slug, m) in SiblingSlugs(datasets, owner);
    assert |CloneCandidate(slug, 2)| > |slug|;
    assert CloneCandidate(slug, 2) !in SiblingSlugs(datasets, owner);
    assert n == 2;
    assert Str(2) == "2";
  }

  // ---------------------------------------------------------------------
  // DataSetAdmin.save_model

  /** The owner a dataset keeps after an admin save by `username`. */
  function OwnerAfterSave(owner: Option<string>, username: string, isSuperuser: bool): (r: Option<string>)
    ensures !isSuperuser && owner.None? ==> r == Some(username)
    ensures isSuperuser || owner.Some? ==> r == owner
  {
    if !isSuperuser && owner.None? then Some(username) else owner
  }

  /** A dataset as edited in the admin. */
  class DataSetForm {
    var owner: Option<string>
    var slug: string

    constructor (owner: Option<string>, slug: string)
      ensures this.owner == owner && this.slug == slug
    {
      this.owner := owner;
      this.slug := slug;
    }

    /** DataSetAdmin.save_model, before the save itself. */
    method SaveModel(username: string, isSuperuser: bool)
      modifies this
      ensures owner == OwnerAfterSave(old(owner), username, isSuperuser)
      ensures slug == old(slug)
    {
      if !isSuperuser {
        if owner.None? {
          owner := Some(username);
        }
      }
    }
  }

  /** A save never takes a dataset away from its owner, and an ownerless one saved by a staff user becomes theirs. */
  lemma SaveKeepsOwnership(owner: Option<string>, username: string, isSuperuser: bool)
    ensures OwnerAfterSave(owner, username, isSuperuser).Some? <==> owner.Some? || !isSuperuser
    ensures OwnerAfterSave(OwnerAfterSave(owner, username, isSuperuser), username, isSuperuser) ==
      OwnerAfterSave(owner, username, isSuperuser)
  {
  }

  // ---------------------------------------------------------------------
  // The get_queryset owner scoping

  /**
   * The rows an admin list shows: all for a superuser, otherwise those
   * whose owning dataset belongs to the user (in the same order).
   */
  function Scoped<T(!new)>(rows: seq<T>, ownerOf: T -> Option<string>, username: string, isSuperuser: bool)
    : (r: seq<T>)
    ensures isSuperuser ==> r == rows
    ensures !isSuperuser ==> forall x :: x in r <==> x in rows && ownerOf(x) == Some(username)
    ensures |r| <= |rows|
  {
    if isSuperuser || rows == [] then rows
    else
      var rest := Scoped(rows[1..], ownerOf, username, isSuperuser);
      assert forall x :: x in rows[1..] ==> x in rows;
      assert forall x :: x in rows && x != rows[0] ==> x in rows[1..];
      if ownerOf(rows[0]) == Some(username) then [rows[0]] + rest else rest
  }

  /**
   * Scoped keeps the rows' order, as a filter does: the rows shown from a
   * concatenation are those of its parts in turn, and one row is shown
   * exactly when the user may see it.
   */
  lemma {:induction false} ScopedInOrder<T(!new)>(a: seq<T>, b: seq<T>, ownerOf: T -> Option<string>,
                                                  username: string, isSuperuser: bool)
    ensures Scoped(a + b, ownerOf, username, isSuperuser) ==
      Scoped(a, ownerOf, username, isSuperuser) + Scoped(b, ownerOf, username, isSuperuser)
    ensures |a| == 1 ==>
              Scoped(a, ownerOf, username, isSuperuser) ==
              (if isSuperuser || ownerOf(a[0]) == Some(username) then a else [])
  {
    if isSuperuser {
    } else if a == [] {
      assert a + b == b;
    } else {
      var x := a[0];
      assert (a + b)[0] == x;
      assert (a + b)[1..] == a[1..] + b;
      ScopedInOrder(a[1..], b, ownerOf, username, isSuperuser);
      if |a| == 1 {
        assert a[1..] == [];
        assert [x] == a;
      }
    }
  }

  /** A non-superuser sees nothing of datasets owned by someone else. */
  lemma ScopedHidesOthers<T(!new)>(rows: seq<T>, ownerOf: T -> Option<string>, username: string, x: T)
    requires x in rows && ownerOf(x) != Some(username)
    ensures x !in Scoped(rows, ownerOf, username, false)
    ensures x in Scoped(rows, ownerOf, username, true)
  {
  }

  // ---------------------------------------------------------------------
  // ActionAdmin.type_of_thing

  /**
   * type_of_thing: "place" for a place, else the submission's set name; the
   * admin column agrees with the action serializer's target type.
   */
  function TypeOfThing(thing: Thing): (r: Result<string>)
    ensures r == TargetType(thing)
    ensures r.Success? <==> !thing.Neither?
  {
    if thing.PlaceThing? then Success("place")
    else if thing.SubmissionThing? then Success(thing.setName)
    else Failure(NotFound)
  }

  // ---------------------------------------------------------------------
  // SubmissionAdmin.list_display

  const SubmittedThingColumns: seq<string> :=
    ["id", "created_datetime", "submitter_name", "dataset", "visible", "data"]

  /** `base[:-1] + ('place_model', 'set_') + base[-1:]`. */
  function InsertBeforeLast(base: seq<string>, columns: seq<string>): (r: seq<string>)
    ensures |r| == |base| + |columns|
    ensures base != [] ==> r[|r| - 1] == base[|base| - 1] && r[..|base| - 1] == base[..|base| - 1]
    ensures base != [] ==> r[|base| - 1..|r| - 1] == columns
  {
    if base == [] then columns
    else base[..|base| - 1] + columns + base[|base| - 1..]
  }

  /** The submission list keeps "data" last, with the place and set columns before it. */
  lemma SubmissionColumns()
    ensures InsertBeforeLast(SubmittedThingColumns, ["place_model", "set_"]) ==
      ["id", "created_datetime", "submitter_name", "dataset", "visible", "place_model", "set_", "data"]
  {
  }
}
