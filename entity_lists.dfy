// The list edits the Missions, Drones, Sites and Users contexts apply to their collection after
// a successful mutation: append, replace by id, shallow merge by id, status update, delete.

module EntityLists {
  import opened Wrappers
  import opened Json
  import opened Seqs

  /** `x.id === id` */
  predicate HasId(x: Json, id: string) {
    Prop(Some(x), "id") == Some(JStr(id))
  }

  /** `prev || []` */
  function Items(prev: Option<seq<Json>>): seq<Json> {
    if prev.Some? then prev.value else []
  }

  /** `[...(prev || []), created]` */
  function Append(prev: Option<seq<Json>>, created: Json): (r: seq<Json>)
    ensures |r| == |Items(prev)| + 1 && r[|r| - 1] == created
    ensures r[..|r| - 1] == Items(prev)
  {
    Items(prev) + [created]
  }

  /** `prev?.map(x => x.id === id ? updated : x)`, applied to `prev || []` */
  function ReplaceById(xs: seq<Json>, id: string, updated: Json): (r: seq<Json>)
    ensures |r| == |xs|
    ensures forall i :: 0 <= i < |r| ==> r[i] == if HasId(xs[i], id) then updated else xs[i]
  {
    seq(|xs|, i requires 0 <= i < |xs| => if HasId(xs[i], id) then updated else xs[i])
  }

  /** `{ ...x, ...patch }` */
  function Merge(x: Json, patch: Json): (r: Json)
    ensures r.JObj?
    ensures UniqueKeys(OwnFields(patch)) ==>
              forall k :: Get(r.fields, k) == if Has(OwnFields(patch), k) then Get(OwnFields(patch), k) else Get(OwnFields(x), k)
  {
    JObj(Spread(OwnFields(x), OwnFields(patch)))
  }

  /** `prev?.map(x => x.id === id ? { ...x, ...patch } : x) || []` */
  function MergeById(xs: seq<Json>, id: string, patch: Json): (r: seq<Json>)
    ensures |r| == |xs|
    ensures forall i :: 0 <= i < |r| ==> r[i] == if HasId(xs[i], id) then Merge(xs[i], patch) else xs[i]
  {
    seq(|xs|, i requires 0 <= i < |xs| => if HasId(xs[i], id) then Merge(xs[i], patch) else xs[i])
  }

  /** `{ ...x, status: reply.status }`; an undefined status is dropped by every later JSON.stringify. */
  function WithStatus(x: Json, reply: Json): (r: Json)
    ensures r.JObj?
    ensures Get(r.fields, "status") == Prop(Some(reply), "status")
    ensures forall k :: k != "status" ==> Get(r.fields, k) == Get(OwnFields(x), k)
  {
    match Prop(Some(reply), "status")
    case Some(status) => JObj(Assign(OwnFields(x), "status", status))
    case None => JObj(Unset(OwnFields(x), "status"))
  }

  /** `prev?.map(x => x.id === id ? { ...x, status: reply.status } : x) || []` */
  function SetStatusById(xs: seq<Json>, id: string, reply: Json): (r: seq<Json>)
    ensures |r| == |xs|
    ensures forall i :: 0 <= i < |r| ==> r[i] == if HasId(xs[i], id) then WithStatus(xs[i], reply) else xs[i]
  {
    seq(|xs|, i requires 0 <= i < |xs| => if HasId(xs[i], id) then WithStatus(xs[i], reply) else xs[i])
  }

  /** `prev?.filter(x => x.id !== id) || []` */
  function RemoveById(xs: seq<Json>, id: string): (r: seq<Json>)
    ensures IsSubsequence(r, xs)
    ensures forall x :: x in r <==> x in xs && !HasId(x, id)
  {
    if xs == [] then []
    else if HasId(xs[0], id) then RemoveById(xs[1..], id)
    else [xs[0]] + RemoveById(xs[1..], id)
  }

  /** Replacing with a reply that carries the same id can be repeated without effect. */
  lemma ReplaceByIdIdempotent(xs: seq<Json>, id: string, updated: Json)
    requires HasId(updated, id)
    ensures ReplaceById(ReplaceById(xs, id, updated), id, updated) == ReplaceById(xs, id, updated)
  {
  }

  /** A merge keeps every property the reply does not mention, and the reply wins on the rest. */
  lemma MergeKeepsUnmentioned(xs: seq<Json>, id: string, patch: Json, i: nat, k: string)
    requires i < |xs| && HasId(xs[i], id) && WellFormedObject(patch)
    ensures var merged := MergeById(xs, id, patch)[i];
            Get(merged.fields, k) == if Has(OwnFields(patch), k) then Get(OwnFields(patch), k) else Get(xs[i].fields, k)
  {
  }

  /** Merging a reply that does not touch `id` keeps the element findable under the same id. */
  lemma MergeKeepsId(x: Json, id: string, patch: Json)
    requires HasId(x, id) && WellFormedObject(patch)
    requires !Has(OwnFields(patch), "id") || Get(OwnFields(patch), "id") == Some(JStr(id))
    ensures HasId(Merge(x, patch), id)
  {
  }

  /** A status update changes nothing but `status`, so the drone keeps its id. */
  lemma StatusKeepsId(x: Json, id: string, reply: Json)
    requires HasId(x, id)
    ensures HasId(WithStatus(x, reply), id)
  {
  }

  lemma {:induction false} RemoveAbsent(xs: seq<Json>, id: string)
    requires forall i :: 0 <= i < |xs| ==> !HasId(xs[i], id)
    ensures RemoveById(xs, id) == xs
  {
    if xs != [] {
      RemoveAbsent(xs[1..], id);
    }
  }

  /** Deleting twice is deleting once. */
  lemma RemoveByIdIdempotent(xs: seq<Json>, id: string)
    ensures RemoveById(RemoveById(xs, id), id) == RemoveById(xs, id)
  {
    var r := RemoveById(xs, id);
    assert forall i :: 0 <= i < |r| ==> r[i] in r;
    RemoveAbsent(r, id);
  }

  lemma {:induction false} RemoveDistributes(xs: seq<Json>, ys: seq<Json>, id: string)
    ensures RemoveById(xs + ys, id) == RemoveById(xs, id) + RemoveById(ys, id)
  {
    if xs != [] {
      var zs := xs + ys;
      assert zs[0] == xs[0];
      assert zs[1..] == xs[1..] + ys;
      RemoveDistributes(xs[1..], ys, id);
      if HasId(xs[0], id) {
        assert RemoveById(zs, id) == RemoveById(zs[1..], id);
        assert RemoveById(xs, id) == RemoveById(xs[1..], id);
      } else {
        assert RemoveById(zs, id) == [xs[0]] + RemoveById(zs[1..], id);
        assert RemoveById(xs, id) == [xs[0]] + RemoveById(xs[1..], id);
        assert [xs[0]] + (RemoveById(xs[1..], id) + RemoveById(ys, id)) ==
               ([xs[0]] + RemoveById(xs[1..], id)) + RemoveById(ys, id);
      }
    } else {
      assert xs + ys == ys;
    }
  }

  /** Deleting what was just created under that id leaves the list as it was before the
      creation, less any older elements with the same id. */
  lemma DeleteAfterAppend(prev: Option<seq<Json>>, created: Json, id: string)
    requires HasId(created, id)
    ensures RemoveById(Append(prev, created), id) == RemoveById(Items(prev), id)
  {
    RemoveDistributes(Items(prev), [created], id);
    assert RemoveById([created], id) == [];
  }

  /** Replacing an element and then deleting its id is the same as deleting it outright. */
  lemma {:induction false} DeleteAfterReplace(xs: seq<Json>, id: string, updated: Json)
    requires HasId(updated, id)
    ensures RemoveById(ReplaceById(xs, id, updated), id) == RemoveById(xs, id)
    decreases |xs|
  {
    if xs != [] {
      var r := ReplaceById(xs, id, updated);
      assert r[1..] == ReplaceById(xs[1..], id, updated);
      DeleteAfterReplace(xs[1..], id, updated);
    }
  }
}
