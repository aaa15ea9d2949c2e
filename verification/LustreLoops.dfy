/** The two loops of the data-movement manager over a list of file systems, against the
 *  sets the finalizer protocol is stated with. */
module LustreLoops {
  import opened Wrappers
  import opened Lustre

  /** One entry of a list, in the order the API server returned it. */
  datatype Listed = Listed(uid: Uid, item: Item)

  /** The list shows every file system of the view once. */
  ghost predicate Lists(items: seq<Listed>, view: View) {
    && (forall i :: 0 <= i < |items| ==> items[i].uid in view && view[items[i].uid] == items[i].item)
    && (forall uid :: uid in view ==> exists i :: 0 <= i < |items| && items[i].uid == uid)
    && (forall i, j :: 0 <= i < j < |items| ==> items[i].uid != items[j].uid)
  }

  /** Volumes for the file systems that are not being deleted, in list order. */
  method SetupLustreVolumes(items: seq<Listed>, ghost view: View) returns (volumes: seq<Vol>)
    requires Lists(items, view)
    ensures (set vol | vol in volumes) == Volumes(view)
    ensures forall i :: 0 <= i < |items| ==>
      (!items[i].item.fs.deleting <==> Vol(items[i].item.fs.name, items[i].uid) in volumes)
    ensures forall vol :: vol in volumes ==>
      exists i :: 0 <= i < |items| && !items[i].item.fs.deleting && vol == Vol(items[i].item.fs.name, items[i].uid)
    ensures forall a, b :: 0 <= a < b < |volumes| ==> volumes[a].uid != volumes[b].uid
  {
    volumes := [];
    for i := 0 to |items|
      invariant forall a, b :: 0 <= a < b < |volumes| ==> volumes[a].uid != volumes[b].uid
      invariant forall vol :: vol in volumes <==>
        exists k :: 0 <= k < i && !items[k].item.fs.deleting && vol == Vol(items[k].item.fs.name, items[k].uid)
    {
      var fs := items[i].item.fs;
      if fs.deleting { continue; }
      assert forall a :: 0 <= a < |volumes| ==> volumes[a] in volumes && volumes[a].uid != items[i].uid;
      volumes := volumes + [Vol(fs.name, items[i].uid)];
    }
    forall i | 0 <= i < |items| && items[i].item.fs.deleting
      ensures Vol(items[i].item.fs.name, items[i].uid) !in volumes
    {
      assert forall k :: 0 <= k < |items| && items[k].uid == items[i].uid ==> k == i;
    }
    forall vol
      ensures vol in volumes <==> vol in Volumes(view)
    {
      if vol in Volumes(view) {
        var uid :| uid in view && !view[uid].fs.deleting && vol == Vol(view[uid].fs.name, uid);
        var k :| 0 <= k < |items| && items[k].uid == uid;
      }
    }
  }

  /** A listed file system is being deleted and a volume has its name. */
  predicate Clash(items: seq<Listed>, volumes: seq<Vol>, i: int, j: int) {
    0 <= i < |items| && 0 <= j < |volumes| && items[i].item.fs.deleting && items[i].item.fs.name == volumes[j].name
  }

  /** The listed file systems that are being deleted, in the order of the list. */
  function Deleting(items: seq<Listed>): (r: seq<Listed>)
    ensures forall x :: x in r <==> x in items && x.item.fs.deleting
  {
    if items == [] then []
    else
      var last := items[|items| - 1];
      assert items == items[..|items| - 1] + [last];
      Deleting(items[..|items| - 1]) + (if last.item.fs.deleting then [last] else [])
  }

  /** The file systems whose finalizer may go once the workers are ready, or nothing at all
      as soon as one of them still has a volume of its name in the template. */
  method SelectFinalizersToRemove(items: seq<Listed>, volumes: seq<Vol>) returns (r: Option<seq<Listed>>)
    ensures r.None? <==> exists i, j :: Clash(items, volumes, i, j)
    ensures r.Some? ==> r.value == Deleting(items)
  {
    var chosen: seq<Listed> := [];
    for i := 0 to |items|
      invariant forall k, j :: 0 <= k < i ==> !Clash(items, volumes, k, j)
      invariant chosen == Deleting(items[..i])
    {
      assert items[..i + 1][..i] == items[..i];
      if items[i].item.fs.deleting {
        chosen := chosen + [items[i]];
        for j := 0 to |volumes|
          invariant forall k :: 0 <= k < j ==> !Clash(items, volumes, i, k)
        {
          if items[i].item.fs.name == volumes[j].name {
            assert Clash(items, volumes, i, j);
            return None;
          }
        }
      }
    }
    assert items[..|items|] == items;
    return Some(chosen);
  }

  /** The loops stop the pass exactly when the protocol does. */
  lemma BlockedMeansClash(items: seq<Listed>, volumes: seq<Vol>, view: View)
    requires Lists(items, view)
    ensures Blocked(view, set vol | vol in volumes) <==> exists i, j :: Clash(items, volumes, i, j)
  {
    var vols := set vol | vol in volumes;
    if Blocked(view, vols) {
      var uid :| uid in view && view[uid].fs.deleting && NameUsed(vols, view[uid].fs.name);
      var vol :| vol in vols && vol.name == view[uid].fs.name;
      var i :| 0 <= i < |items| && items[i].uid == uid;
      var j :| 0 <= j < |volumes| && volumes[j] == vol;
      assert Clash(items, volumes, i, j);
    }
    if i, j :| Clash(items, volumes, i, j) {
      assert volumes[j] in vols;
      assert NameUsed(vols, items[i].item.fs.name);
      assert items[i].uid in view;
    }
  }

  /** What they select is what the protocol releases, once each. */
  lemma DeletingListsDoomed(items: seq<Listed>, view: View)
    requires Lists(items, view)
    ensures Lists(Deleting(items), Doomed(view))
  {
    var r := Deleting(items);
    forall i | 0 <= i < |r|
      ensures r[i].uid in Doomed(view) && Doomed(view)[r[i].uid] == r[i].item
    {
      assert r[i] in items;
    }
    forall uid | uid in Doomed(view)
      ensures exists i :: 0 <= i < |r| && r[i].uid == uid
    {
      var k :| 0 <= k < |items| && items[k].uid == uid;
      assert items[k] in r;
    }
    DeletingDistinct(items);
  }

  lemma {:induction false} DeletingDistinct(items: seq<Listed>)
    requires forall i, j :: 0 <= i < j < |items| ==> items[i].uid != items[j].uid
    ensures forall i, j :: 0 <= i < j < |Deleting(items)| ==> Deleting(items)[i].uid != Deleting(items)[j].uid
  {
    if items != [] {
      var n := |items| - 1;
      DeletingDistinct(items[..n]);
      forall x | x in Deleting(items[..n])
        ensures x.uid != items[n].uid
      {
        assert x in items[..n];
      }
      assert forall i :: 0 <= i < |Deleting(items[..n])| ==> Deleting(items[..n])[i] in Deleting(items[..n]);
    }
  }
}
