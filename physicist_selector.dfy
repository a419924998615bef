/**
 * The physicist picker (src/components/PhysicistSelector.tsx): a click
 * toggles the physicist in or out of the selection, except on the Photon
 * Guide, which is always shown as selected and cannot be deselected.
 */
module PhysicistSelector {
  import opened Common
  import opened PhysicistCatalog
  import opened Selection

  /** The card's `onClick`: `!isGodOfPhysics(id) && togglePhysicist(id)`. */
  function Click(selection: seq<string>, id: string): (r: seq<string>)
    ensures id == GodOfPhysicsId ==> r == selection
    ensures id != GodOfPhysicsId ==> (id in r <==> id !in selection)
    ensures forall i :: 0 <= i < |selection| && selection[i] != id ==>
      multiset(r)[selection[i]] == multiset(selection)[selection[i]]
  {
    if id == GodOfPhysicsId then selection else Toggle(selection, id)
  }

  /** The card is drawn with the selected border. */
  predicate ShownSelected(selection: seq<string>, id: string) {
    id in selection || id == GodOfPhysicsId
  }

  /**
   * A click flips the highlighting of its own card unless that card is the
   * Photon Guide's, which stays highlighted whatever is clicked.
   */
  lemma ClickFlipsOwnCard(selection: seq<string>, id: string)
    ensures id != GodOfPhysicsId ==> ShownSelected(Click(selection, id), id) != ShownSelected(selection, id)
    ensures ShownSelected(Click(selection, id), GodOfPhysicsId)
  {
  }

  /** No click adds the Photon Guide to the selection or takes it out. */
  lemma {:induction false} ClickKeepsGuide(selection: seq<string>, id: string)
    ensures multiset(Click(selection, id))[GodOfPhysicsId] == multiset(selection)[GodOfPhysicsId]
  {
    var r := Click(selection, id);
    if id != GodOfPhysicsId {
      if GodOfPhysicsId in selection {
        var i :| 0 <= i < |selection| && selection[i] == GodOfPhysicsId;
      } else {
        assert GodOfPhysicsId !in r;
        assert GodOfPhysicsId !in multiset(r);
      }
    }
  }
}
