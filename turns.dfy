/** The turn list of the prompt editor as values, and the pure transforms
    that the editor's handlers apply to it before storing the result.

    A turn is a JavaScript object with the keys `id`, `role` and `content`;
    each key is modelled as an optional string, `None` when the object does
    not carry it. Turns built by the editor carry all three; the copy
    transform drops `id`, and a pasted element carries whatever the
    clipboard text gave it, since pasting does not check for `role` or
    `content`. */
module Turns {
  import opened Wrappers
  import opened Decimal

  datatype Turn = Turn(id: Option<string>, role: Option<string>, content: Option<string>)

  /** The id the editor gives to the turn at 0-based position `k`. */
  function PositionId(k: nat): string {
    NatToString(k + 1)
  }

  /** Ids are exactly "1".."n" by position. */
  predicate PositionalIds(data: seq<Turn>) {
    forall k :: 0 <= k < |data| ==> data[k].id == Some(PositionId(k))
  }

  /** Two turns agree on everything but their id. */
  predicate SameFields(a: Turn, b: Turn) {
    a.role == b.role && a.content == b.content
  }

  /** The three-turn conversation the editor starts with. */
  function InitialData(): (data: seq<Turn>)
    ensures |data| == 3 && PositionalIds(data)
    ensures data[0].role == Some("system") && data[1].role == Some("assistant") && data[2].role == Some("user")
    ensures forall k :: 0 <= k < 3 ==> data[k].content.Some? && data[k].content.value != ""
  {
    assert NatToString(1) == "1" && NatToString(2) == "2" && NatToString(3) == "3";
    [ Turn(Some("1"), Some("system"), Some("some text")),
      Turn(Some("2"), Some("assistant"), Some("some other text")),
      Turn(Some("3"), Some("user"), Some("some more text\ntext continued")) ]
  }

  /** The role of the last turn, read as `data[data.length - 1]?.role || 'system'`:
      an empty list, a missing role and the (falsy) empty role all give "system". */
  function LastRole(data: seq<Turn>): string {
    if |data| == 0 then "system"
    else match data[|data| - 1].role
      case None => "system"
      case Some(r) => if r == "" then "system" else r
  }

  /** The role of a newly added turn alternates off the last turn's role. */
  function NextRole(data: seq<Turn>): (role: string)
    ensures role == "user" <==> |data| > 0 && data[|data| - 1].role == Some("assistant")
    ensures role != "user" ==> role == "assistant"
  {
    if LastRole(data) == "assistant" then "user" else "assistant"
  }

  /** Add turn: append an empty turn with the next role and id length+1. */
  function AddTurn(data: seq<Turn>): (r: seq<Turn>)
    ensures |r| == |data| + 1 && r[..|data|] == data
    ensures r[|data|].id == Some(PositionId(|data|))
    ensures r[|data|].content == Some("")
    ensures r[|data|].role == Some(if |data| > 0 && data[|data| - 1].role == Some("assistant") then "user" else "assistant")
    ensures PositionalIds(data) ==> PositionalIds(r)
  {
    data + [Turn(Some(NatToString(|data| + 1)), Some(NextRole(data)), Some(""))]
  }

  /** Role edit: the turn at `index` takes `newRole`; an index outside the list
      matches no element, so the list comes back as it was. */
  function WithRole(data: seq<Turn>, index: int, newRole: string): (r: seq<Turn>)
    ensures |r| == |data|
    ensures forall k :: 0 <= k < |data| && k != index ==> r[k] == data[k]
    ensures 0 <= index < |data| ==>
      r[index].role == Some(newRole) && r[index].id == data[index].id && r[index].content == data[index].content
    ensures !(0 <= index < |data|) ==> r == data
    ensures PositionalIds(data) ==> PositionalIds(r)
  {
    seq(|data|, k requires 0 <= k < |data| => if k == index then data[k].(role := Some(newRole)) else data[k])
  }

  /** Content edit: the turn at `index` takes `newContent`; an index outside the
      list leaves it as it was. */
  function WithContent(data: seq<Turn>, index: int, newContent: string): (r: seq<Turn>)
    ensures |r| == |data|
    ensures forall k :: 0 <= k < |data| && k != index ==> r[k] == data[k]
    ensures 0 <= index < |data| ==>
      r[index].content == Some(newContent) && r[index].id == data[index].id && r[index].role == data[index].role
    ensures !(0 <= index < |data|) ==> r == data
    ensures PositionalIds(data) ==> PositionalIds(r)
  {
    seq(|data|, k requires 0 <= k < |data| => if k == index then data[k].(content := Some(newContent)) else data[k])
  }

  /** Copy transform: every turn loses its id and keeps the rest, in order. */
  function StripIds(data: seq<Turn>): (r: seq<Turn>)
    ensures |r| == |data|
    ensures forall k :: 0 <= k < |r| ==> r[k].id == None && SameFields(r[k], data[k])
  {
    seq(|data|, k requires 0 <= k < |data| => data[k].(id := None))
  }

  /** Paste transform: every element gets its 1-based position as id,
      whatever id it came with, and keeps the rest, in order. */
  function AssignIds(items: seq<Turn>): (r: seq<Turn>)
    ensures |r| == |items|
    ensures forall k :: 0 <= k < |r| ==> r[k].id == Some(PositionId(k)) && SameFields(r[k], items[k])
    ensures PositionalIds(r)
  {
    seq(|items|, k requires 0 <= k < |items| => items[k].(id := Some(NatToString(k + 1))))
  }

  /** Positional ids are unique, so each turn's id is a distinct key. */
  lemma PositionalIdsDistinct(data: seq<Turn>, i: nat, j: nat)
    requires PositionalIds(data)
    requires i < |data| && j < |data|
    ensures data[i].id == data[j].id <==> i == j
  {
    NatToStringInjective(i + 1, j + 1);
  }

  /** Copy then paste gives back the original turns with positional ids:
      whatever ids the original held make no difference. */
  lemma CopyPasteRoundTrip(data: seq<Turn>)
    ensures AssignIds(StripIds(data)) == AssignIds(data)
    ensures forall k :: 0 <= k < |data| ==> SameFields(AssignIds(StripIds(data))[k], data[k])
  {
  }

  /** Assigning ids changes nothing exactly when the ids were already positional;
      so a copy-then-paste of a list with positional ids reproduces it. */
  lemma AssignIdsFixedPoint(data: seq<Turn>)
    ensures AssignIds(data) == data <==> PositionalIds(data)
    ensures PositionalIds(data) ==> AssignIds(StripIds(data)) == data
  {
  }

  /** Paste then copy gives back the pasted elements without ids. */
  lemma PasteCopyRoundTrip(items: seq<Turn>)
    ensures StripIds(AssignIds(items)) == StripIds(items)
  {
  }

  /** An illustration: pasting accepts an element that carries neither `role`
      nor `content` and stores it as it is, with a positional id. That holds
      for every element by the contract of AssignIds. */
  lemma PasteAcceptsElementsWithoutFields()
    ensures AssignIds([Turn(None, None, None)]) == [Turn(Some("1"), None, None)]
  {
  }
}
