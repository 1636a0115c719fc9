/** The list-and-dialog controller shared by the education list (src/components/Formacion.tsx)
    and the work-experience list (src/components/ExpLaboral.tsx): which record the dialog edits,
    whether it is open, and which parent handler a save or a delete reaches.  `T` is the record
    type and `D` the record without its id. */
module Selection {
  import opened Wrappers

  /** The parent handler a save reaches. */
  datatype SaveCall<D> = UpdateCall(id: string, data: D) | AddCall(data: D)

  /** `handleSave`'s branch: an update of the selected record, or an addition. */
  function ChooseSave<T, D>(selected: Option<T>, idOf: T -> string, data: D): (c: SaveCall<D>)
    ensures c.UpdateCall? <==> selected.Some?
    ensures c.data == data
    ensures c.UpdateCall? ==> c.id == idOf(selected.value)
  {
    match selected
    case Some(x) => UpdateCall(idOf(x), data)
    case None => AddCall(data)
  }

  /** The id a confirmed delete passes on; a declined confirmation passes nothing. */
  function DeleteRequest(id: string, confirmed: bool): (r: Option<string>)
    ensures r.Some? <==> confirmed
    ensures r.Some? ==> r.value == id
  {
    if confirmed then Some(id) else None
  }

  class Controller<T> {
    var isModalOpen: bool
    var selected: Option<T>

    constructor()
      ensures !isModalOpen && selected == None
    {
      isModalOpen := false;
      selected := None;
    }

    /** `handleEdit`: the dialog opens on the record. */
    method HandleEdit(x: T)
      modifies this
      ensures selected == Some(x) && isModalOpen
    {
      selected := Some(x);
      isModalOpen := true;
    }

    /** The "add" button: the dialog opens empty. */
    method OpenAdd()
      modifies this
      ensures selected == None && isModalOpen
    {
      selected := None;
      isModalOpen := true;
    }

    /** `handleDelete`: the parent's delete runs only after confirmation; no state changes. */
    method HandleDelete(id: string, confirmed: bool) returns (request: Option<string>)
      ensures request == DeleteRequest(id, confirmed)
    {
      request := DeleteRequest(id, confirmed);
    }

    /** `handleSave`: the call goes to the parent; when it settles the dialog closes and the
        selection clears, and when it rejects the rejection goes back to the dialog with the
        state left as it was. */
    method HandleSave<D>(idOf: T -> string, data: D, settled: Outcome) returns (call: SaveCall<D>)
      modifies this
      ensures call == ChooseSave(old(selected), idOf, data)
      ensures settled == Success ==> !isModalOpen && selected == None
      ensures settled == Failure ==> isModalOpen == old(isModalOpen) && selected == old(selected)
    {
      match selected {
        case Some(x) => call := UpdateCall(idOf(x), data);
        case None => call := AddCall(data);
      }
      if settled == Success {
        isModalOpen := false;
        selected := None;
      }
    }

    /** The dialog's `onClose`. */
    method Close()
      modifies this
      ensures !isModalOpen && selected == None
    {
      isModalOpen := false;
      selected := None;
    }
  }
}
