/** The per-row action menu of the admin tables: at most one menu is open,
    identified by its row's id. */
module Popup {
  import opened Wrappers

  /** `togglePopup(id)`: `openPopupId === id ? null : id`. */
  function Toggled(open: Option<string>, id: string): Option<string> {
    if open == Some(id) then None else Some(id)
  }

  /** A click on a row's menu button closes that row's menu when it is the
      open one, and otherwise opens it (closing any other). */
  lemma ToggledOpensOrCloses(open: Option<string>, id: string)
    ensures Toggled(open, id) == None <==> open == Some(id)
    ensures Toggled(open, id) != None ==> Toggled(open, id) == Some(id)
    ensures forall other :: other != id ==> Toggled(open, id) != Some(other)
  {
  }

  /** Two clicks on the same button leave that row's menu as it was, and
      leave every other menu closed. */
  lemma ToggledTwice(open: Option<string>, id: string)
    ensures Toggled(Toggled(open, id), id) == if open == Some(id) then Some(id) else None
  {
  }
}
