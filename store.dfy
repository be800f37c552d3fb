/** The turn list held by `App` in its state variable `data`. The add, edit
    and paste handlers replace it wholesale through `setData`; the copy
    handler only reads it. */
module Store {
  import opened Wrappers
  import opened Turns

  class TurnStore {
    var data: seq<Turn>

    /** The list's ids are "1".."n" by position. */
    predicate Valid()
      reads this
    {
      PositionalIds(data)
    }

    /** The store starts with the built-in three-turn conversation. */
    constructor ()
      ensures data == InitialData()
      ensures Valid()
    {
      data := InitialData();
    }

    /** The "+ Add New Turn" button. */
    method HandleAddNewTurn()
      modifies this
      ensures data == AddTurn(old(data))
      ensures old(Valid()) ==> Valid()
    {
      data := AddTurn(data);
    }

    /** A row's role selector reporting `newRole` for row `index`. */
    method HandleRoleChange(index: int, newRole: string)
      modifies this
      ensures data == WithRole(old(data), index, newRole)
      ensures old(Valid()) ==> Valid()
    {
      data := WithRole(data, index, newRole);
    }

    /** A row's text box reporting `newContent` for row `index`. */
    method HandleContentChange(index: int, newContent: string)
      modifies this
      ensures data == WithContent(old(data), index, newContent)
      ensures old(Valid()) ==> Valid()
    {
      data := WithContent(data, index, newContent);
    }

    /** The "Copy" button: the list that is serialised to the clipboard.
        The store itself is left as it is. */
    method HandleCopy() returns (copied: seq<Turn>)
      ensures |copied| == |data|
      ensures forall k :: 0 <= k < |copied| ==> copied[k] == data[k].(id := None)
      ensures copied == StripIds(data)
    {
      copied := StripIds(data);
    }

    /** The "Load from clipboard" button. `parsed` is what reading and parsing
        the clipboard gave: `None` when reading failed, the text was not JSON
        or the value was not an array. On failure nothing changes. */
    method HandlePaste(parsed: Option<seq<Turn>>) returns (pasted: bool)
      modifies this
      ensures pasted <==> parsed.Some?
      ensures pasted ==> data == AssignIds(parsed.value) && Valid()
      ensures !pasted ==> data == old(data)
    {
      match parsed {
        case None =>
          pasted := false;
        case Some(items) =>
          data := AssignIds(items);
          pasted := true;
      }
    }
  }
}
