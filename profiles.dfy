/** The three array searches the worker runs over the profile list:
    `findIndex(p => p.id === id)`, `find(p => p.id === id)` and
    `filter(p => p.id !== id)`. */
module Profiles {
  import opened ProxyData

  predicate HasId(ps: seq<Profile>, id: Option<string>)
  {
    exists i :: 0 <= i < |ps| && ps[i].id == id
  }

  /** `findIndex`: the index of the first profile carrying `id`, or -1. */
  function FindIndex(ps: seq<Profile>, id: Option<string>): (i: int)
    ensures -1 <= i < |ps|
    ensures i == -1 <==> !HasId(ps, id)
    ensures i >= 0 ==> ps[i].id == id && forall j :: 0 <= j < i ==> ps[j].id != id
  {
    if ps == [] then -1
    else if ps[0].id == id then 0
    else
      var k := FindIndex(ps[1..], id);
      if k == -1 then -1 else k + 1
  }

  /** `find`: the first profile whose id is `id`, if any. */
  function Find(ps: seq<Profile>, id: string): (r: Option<Profile>)
    ensures r.None? <==> !HasId(ps, Some(id))
    ensures r.Some? ==> r.value.id == Some(id)
    ensures r.Some? ==> exists i :: 0 <= i < |ps| && ps[i] == r.value &&
                                    forall j :: 0 <= j < i ==> ps[j].id != Some(id)
  {
    var i := FindIndex(ps, Some(id));
    if i == -1 then None else Some(ps[i])
  }

  /** `filter(p => p.id !== id)`. */
  function RemoveId(ps: seq<Profile>, id: string): (r: seq<Profile>)
    ensures |r| <= |ps|
    ensures forall p :: p in r <==> p in ps && p.id != Some(id)
    ensures !HasId(ps, Some(id)) ==> r == ps
  {
    if ps == [] then []
    else if ps[0].id == Some(id) then RemoveId(ps[1..], id)
    else
      assert !HasId(ps, Some(id)) ==> !HasId(ps[1..], Some(id)) by {
        if HasId(ps[1..], Some(id)) {
          var i :| 0 <= i < |ps[1..]| && ps[1..][i].id == Some(id);
          assert ps[i + 1].id == Some(id);
        }
      }
      [ps[0]] + RemoveId(ps[1..], id)
  }

  /** The filter keeps the surviving profiles in their original order: it
      distributes over concatenation. */
  lemma {:induction false} RemoveIdAppend(a: seq<Profile>, b: seq<Profile>, id: string)
    ensures RemoveId(a + b, id) == RemoveId(a, id) + RemoveId(b, id)
  {
    if a == [] {
      assert a + b == b;
    } else {
      assert (a + b)[0] == a[0];
      assert (a + b)[1..] == a[1..] + b;
      RemoveIdAppend(a[1..], b, id);
    }
  }

  /** A second filter by the same id removes nothing more. */
  lemma RemoveIdIdempotent(ps: seq<Profile>, id: string)
    ensures RemoveId(RemoveId(ps, id), id) == RemoveId(ps, id)
  {
  }

  /** Removing one id keeps every profile that carries another id. */
  lemma RemoveIdKeepsOthers(ps: seq<Profile>, id: string, other: string)
    requires other != id && HasId(ps, Some(other))
    ensures HasId(RemoveId(ps, id), Some(other))
  {
    var i :| 0 <= i < |ps| && ps[i].id == Some(other);
    assert ps[i] in ps;
    var r := RemoveId(ps, id);
    assert ps[i] in r;
    var j :| 0 <= j < |r| && r[j] == ps[i];
  }
}
