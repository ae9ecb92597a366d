/** The add-on selection of the order funnel: a list of chosen add-ons that a
    click toggles by id (the option step of src/App.tsx). */
module Selection {
  import opened Catalogue

  /** Some entry of the selection has the given id (`find`/`some` by id). */
  function HasId(sel: seq<AddOn>, id: string): (r: bool)
    ensures r <==> exists i :: 0 <= i < |sel| && sel[i].id == id
  {
    if sel == [] then false else sel[0].id == id || HasId(sel[1..], id)
  }

  /** The selection without the entries that have the given id (`filter`). */
  function RemoveId(sel: seq<AddOn>, id: string): (r: seq<AddOn>)
    ensures forall o :: o in r <==> o in sel && o.id != id
    ensures |r| <= |sel|
  {
    if sel == [] then []
    else if sel[0].id == id then RemoveId(sel[1..], id)
    else [sel[0]] + RemoveId(sel[1..], id)
  }

  /** A click on an add-on: drop it if an entry with its id is selected,
      otherwise append it. */
  function Toggle(sel: seq<AddOn>, opt: AddOn): (r: seq<AddOn>)
    ensures HasId(r, opt.id) <==> !HasId(sel, opt.id)
    ensures forall o :: o in sel && o.id != opt.id ==> o in r
    ensures forall o :: o in r ==> o in sel || o == opt
  {
    if HasId(sel, opt.id) then RemoveId(sel, opt.id)
    else
      var appended := sel + [opt];
      assert appended[|sel|] == opt;
      appended
  }

  /** No two entries of the selection share an id. */
  ghost predicate DistinctIds(sel: seq<AddOn>)
  {
    forall i, j :: 0 <= i < j < |sel| ==> sel[i].id != sel[j].id
  }

  /** Filtering distributes over concatenation, so it keeps the order of
      the entries it does not drop. */
  lemma {:induction false} RemoveIdAppend(a: seq<AddOn>, b: seq<AddOn>, id: string)
    ensures RemoveId(a + b, id) == RemoveId(a, id) + RemoveId(b, id)
  {
    if a == [] {
      assert a + b == b;
    } else {
      assert (a + b)[0] == a[0];
      assert (a + b)[1..] == a[1..] + b;
      RemoveIdAppend(a[1..], b, id);
    }
  }

  /** Filtering out an id nobody has changes nothing. */
  lemma {:induction false} RemoveAbsentId(sel: seq<AddOn>, id: string)
    requires !HasId(sel, id)
    ensures RemoveId(sel, id) == sel
  {
    if sel != [] {
      assert !HasId(sel[1..], id);
      RemoveAbsentId(sel[1..], id);
      assert [sel[0]] + sel[1..] == sel;
    }
  }

  /** Filtering keeps ids distinct. */
  lemma {:induction false} RemoveIdKeepsDistinct(sel: seq<AddOn>, id: string)
    requires DistinctIds(sel)
    ensures DistinctIds(RemoveId(sel, id))
  {
    if sel != [] {
      assert DistinctIds(sel[1..]) by {
        forall i, j | 0 <= i < j < |sel[1..]| ensures sel[1..][i].id != sel[1..][j].id {
          assert sel[1..][i] == sel[i + 1] && sel[1..][j] == sel[j + 1];
        }
      }
      RemoveIdKeepsDistinct(sel[1..], id);
      if sel[0].id != id {
        var rest := RemoveId(sel[1..], id);
        forall k | 0 <= k < |rest| ensures rest[k].id != sel[0].id {
          assert rest[k] in sel[1..];
        }
      }
    }
  }

  /** Toggling an add-on whose id is not selected appends it at the end. */
  lemma ToggleAbsentAppends(sel: seq<AddOn>, opt: AddOn)
    requires !HasId(sel, opt.id)
    ensures Toggle(sel, opt) == sel + [opt]
  {
  }

  /** Toggling an add-on whose id is selected removes every entry with that
      id; the other entries keep their relative order. */
  lemma TogglePresentRemoves(sel: seq<AddOn>, opt: AddOn, a: seq<AddOn>, b: seq<AddOn>)
    requires HasId(sel, opt.id)
    requires sel == a + b
    ensures Toggle(sel, opt) == RemoveId(a, opt.id) + RemoveId(b, opt.id)
    ensures !HasId(Toggle(sel, opt), opt.id)
  {
    RemoveIdAppend(a, b, opt.id);
  }

  /** A toggle keeps the ids of the selection distinct. */
  lemma ToggleKeepsDistinct(sel: seq<AddOn>, opt: AddOn)
    requires DistinctIds(sel)
    ensures DistinctIds(Toggle(sel, opt))
  {
    if HasId(sel, opt.id) {
      RemoveIdKeepsDistinct(sel, opt.id);
    }
  }

  /** Clicking twice on an add-on that was not selected restores the selection. */
  lemma ToggleTwiceRestores(sel: seq<AddOn>, opt: AddOn)
    requires !HasId(sel, opt.id)
    ensures Toggle(Toggle(sel, opt), opt) == sel
  {
    var once := sel + [opt];
    assert once[|sel|] == opt;
    assert HasId(once, opt.id);
    RemoveIdAppend(sel, [opt], opt.id);
    RemoveAbsentId(sel, opt.id);
    assert RemoveId([opt], opt.id) == [];
  }
}
