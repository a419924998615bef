/**
 * The mentors page (src/pages/Replicas.tsx): the catalog entries the user
 * selected, in catalog order, and the Photon Guide featured above them.
 */
module ReplicasPage {
  import opened Common
  import opened PhysicistCatalog

  /** `physicists.filter(p => selectedPhysicists.includes(p.id))`. */
  function SelectedPhysicists(catalog: seq<Physicist>, selected: seq<string>): (r: seq<Physicist>)
    ensures forall i :: 0 <= i < |r| ==> r[i].id in selected && r[i] in catalog
    ensures forall i :: 0 <= i < |catalog| && catalog[i].id in selected ==>
      multiset(r)[catalog[i]] == multiset(catalog)[catalog[i]]
  {
    Filter(catalog, (p: Physicist) => p.id in selected)
  }

  /** The cards follow the catalog's order. */
  lemma FollowsCatalogOrder(front: seq<Physicist>, back: seq<Physicist>, selected: seq<string>)
    ensures SelectedPhysicists(front + back, selected) == SelectedPhysicists(front, selected) + SelectedPhysicists(back, selected)
  {
    FilterAppend(front, back, (p: Physicist) => p.id in selected);
  }

  /** Only which ids are selected matters, not their order or repetition. */
  lemma SelectionOrderIsIrrelevant(catalog: seq<Physicist>, s1: seq<string>, s2: seq<string>)
    requires forall id :: id in s1 <==> id in s2
    ensures SelectedPhysicists(catalog, s1) == SelectedPhysicists(catalog, s2)
  {
    FilterCongruent(catalog, (p: Physicist) => p.id in s1, (p: Physicist) => p.id in s2);
  }

  /** A selected id that names no catalog entry shows nothing. */
  lemma UnknownIdsShowNothing(catalog: seq<Physicist>, selected: seq<string>, unknown: string)
    requires forall i :: 0 <= i < |catalog| ==> catalog[i].id != unknown
    ensures SelectedPhysicists(catalog, selected + [unknown]) == SelectedPhysicists(catalog, selected)
  {
    FilterCongruent(catalog, (p: Physicist) => p.id in selected + [unknown], (p: Physicist) => p.id in selected);
  }

  /** `physicists.find(p => p.id === "godofphysics")`. */
  function FeaturedMentor(catalog: seq<Physicist>): (r: Option<Physicist>)
    ensures r.Some? ==> r.value.id == GodOfPhysicsId && r.value in catalog
    ensures r.Some? ==> exists i :: (0 <= i < |catalog| && catalog[i] == r.value
      && forall j :: 0 <= j < i ==> catalog[j].id != GodOfPhysicsId)
    ensures r.None? <==> forall i :: 0 <= i < |catalog| ==> catalog[i].id != GodOfPhysicsId
  {
    Find(catalog, (p: Physicist) => p.id == GodOfPhysicsId)
  }

  /** In the shipped catalog the featured mentor is its first entry. */
  lemma CatalogFeaturesGuide()
    ensures FeaturedMentor(Physicists) == Some(Physicists[0])
  {
    assert Physicists[0].id == GodOfPhysicsId;
  }

  /** The featured mentor also has a card among the selected ones exactly when the user selected it. */
  lemma FeaturedAlsoListedIffSelected(catalog: seq<Physicist>, selected: seq<string>)
    requires FeaturedMentor(catalog).Some?
    ensures FeaturedMentor(catalog).value in SelectedPhysicists(catalog, selected) <==> GodOfPhysicsId in selected
  {
    var g := FeaturedMentor(catalog).value;
    var i :| 0 <= i < |catalog| && catalog[i] == g;
    if GodOfPhysicsId in selected {
      assert multiset(catalog)[g] > 0;
      assert g in multiset(SelectedPhysicists(catalog, selected));
    }
  }
}
