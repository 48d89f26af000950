/**
  The select/deselect toggle shared by the fleet-routing and digital-twin tabs:
  a click on the selected item clears the selection, a click on any other item
  selects it.
 */
module Selection {

  import opened Optional

  /** `id === selected ? null : id`. */
  function Toggled(selected: Option<string>, id: string): (r: Option<string>)
    ensures selected == Some(id) ==> r == None
    ensures selected != Some(id) ==> r == Some(id)
  {
    if selected == Some(id) then None else Some(id)
  }

  /**
    Toggling the same item twice restores no selection and a selection of that
    item; from a selection of another item it leaves nothing selected.
   */
  lemma ToggleTwice(selected: Option<string>, id: string)
    ensures selected == None || selected == Some(id) ==> Toggled(Toggled(selected, id), id) == selected
    ensures selected.Some? && selected != Some(id) ==> Toggled(Toggled(selected, id), id) == None
  {
  }

  /** After a toggle at most `id` is selected, and `id` is selected exactly when it was not before. */
  lemma ToggleSelectsOnlyId(selected: Option<string>, id: string, other: string)
    requires other != id
    ensures Toggled(selected, id) != Some(other)
    ensures Toggled(selected, id) == Some(id) <==> selected != Some(id)
  {
  }
}
