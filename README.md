# Turn list of the chat prompt editor

The chat prompt editor is a one-page React application (`src/App.js`) for
composing a chat prompt as an ordered list of turns, each a record
`{id, role, content}`. The list lives in the state variable `data`. Adding
a turn, a row edit and a successful paste replace it wholesale through
`setData`; Copy only reads it:

- **Add New Turn** appends an empty turn. Its role alternates off the last
  turn's role, and its id is the list length plus one, written in decimal.
- **Role / content edit** (the `Form` rows) replace one field of the turn at
  a row index and leave every other turn as it was.
- **Copy** serialises the list with every `id` removed.
- **Load from clipboard** parses the clipboard as JSON. It gives each element
  its 1-based position as `id` and replaces the list. If anything fails, the
  list is left as it was.

The project models that list and those five operations:

- `wrappers.dfy`: `Option`. `None` stands for a key an object does not carry.
- `decimal.dfy`: the decimal numerals that `toString()` gives the ids, with
  their reading back. Distinct positions get distinct ids.
- `turns.dfy`: the `Turn` record, the initial list, and the pure transforms
  behind each handler. It also holds the lemmas relating them: the
  copy/paste round trips, and the invariant that ids are `"1".."n"` by
  position.
- `store.dfy`: class `TurnStore`, whose field `data` stands for the React
  state. Each handler assigns it the result of the matching transform.

Each key of a turn is an optional string. That way the model covers a pasted
element that lacks `role` or `content`: the code stores such an element
as it is. Roles are arbitrary strings, not the three values of the role
selector, because pasted roles are not checked.

Pasting does not reject elements that lack `role` or `content`. The
comment at src/App.js:100 leaves that check undone. The code fails only when
the clipboard cannot be read, the text is not JSON, or the value is not an
array. `Turns.AssignIds` keeps every element's fields as they came, and
`Store.TurnStore.HandlePaste` succeeds for any array.
`Turns.PasteAcceptsElementsWithoutFields` illustrates this with one element
that has neither field.

src/App.js has no storage or network code.

## Model

| member | source | states |
|---|---|---|
| Decimal.NatToString | src/App.js:39 | an id numeral is non-empty, all decimal digits, one digit exactly below ten, and has no leading zero |
| Decimal.DigitsValueOfNatToString | src/App.js:104 | reading an id numeral back as a decimal number gives the position it was made from |
| Decimal.NatToStringInjective | src/App.js:64 | two numbers have the same numeral exactly when they are equal |
| Turns.InitialData | src/App.js:15-31 | the initial list has three turns with roles system, assistant, user, non-empty contents and ids "1","2","3" |
| Turns.NextRole | src/App.js:35-36 | the new role is "user" exactly when the list is non-empty and the last role is "assistant"; in every other case (empty list, missing or empty role, any other role) it is "assistant" |
| Turns.AddTurn | src/App.js:38-44 | the list grows by one and the old list is its prefix; the new last turn has id length+1, the alternated role and empty content; positional ids are preserved |
| Turns.WithRole | src/App.js:50 | length kept; the turn at the index gets the new role and keeps id and content; every other turn is unchanged; an out-of-range index leaves the list identical; positional ids are preserved |
| Turns.WithContent | src/App.js:54-58 | length kept; the turn at the index gets the new content and keeps id and role; every other turn is unchanged; an out-of-range index leaves the list identical; positional ids are preserved |
| Turns.StripIds | src/App.js:88 | length and order kept; element k has no id and exactly element k's role and content |
| Turns.AssignIds | src/App.js:103-105 | length and order kept; element k gets id k+1 whatever id it came with, and keeps its role and content |
| Turns.PositionalIdsDistinct | src/App.js:63-64 | in a list with positional ids, two turns share an id exactly when they are the same position, so the row keys are unique |
| Turns.CopyPasteRoundTrip | src/App.js:88-105 | pasting the copy output gives the original turns' roles and contents, in order, with positional ids, whatever ids the original had |
| Turns.AssignIdsFixedPoint | src/App.js:103-105 | assigning ids leaves a list unchanged exactly when its ids are already positional; so copy then paste of such a list reproduces it |
| Turns.PasteCopyRoundTrip | src/App.js:103-105 | copying a pasted list gives the pasted elements without ids |
| Turns.PasteAcceptsElementsWithoutFields | src/App.js:100-105 | illustration of the general `AssignIds`/`HandlePaste` contracts: an element with neither role nor content is accepted and stored with id "1" |
| Store.TurnStore.constructor | src/App.js:15-31 | the store starts with the initial conversation, whose ids are positional |
| Store.TurnStore.HandleAddNewTurn | src/App.js:34-45 | the stored list becomes the add-turn result of the old list; positional ids are kept |
| Store.TurnStore.HandleRoleChange | src/App.js:49-51 | the stored list becomes the role edit of the old list at the index; positional ids are kept |
| Store.TurnStore.HandleContentChange | src/App.js:53-59 | the stored list becomes the content edit of the old list at the index; positional ids are kept |
| Store.TurnStore.HandleCopy | src/App.js:87-90 | returns the stored list with every id removed and all else kept, in order; the store is not changed |
| Store.TurnStore.HandlePaste | src/App.js:95-111 | succeeds exactly when the clipboard gave an array; it then stores that array with positional ids, and on failure the list is unchanged |

## Left out

- Clipboard I/O: `copyToClipboard` (a hidden text area and `document.execCommand`) and `navigator.clipboard.readText` are browser I/O. `HandleCopy` returns the list it would write, and `HandlePaste` takes what reading and parsing produced.
- JSON text: the copy/paste round-trip lemmas take it that parsing the copied text gives back the copied list. The indented `JSON.stringify` output and the grammar of `JSON.parse` are library behaviour. A paste input is modelled already parsed. `None` covers a failed read, unparsable text and a value that is not an array.
- Turns: a pasted element's keys other than `id`, `role` and `content` are not modelled, and neither are `role`/`content` values that are not strings. The code carries them along unchanged. Key order inside an object is not modelled either.
- Turns: a pasted array element that is not an object (a number, a string, null) is not modelled. Spreading it gives an object holding only `id`, or index keys for a string.
- The `isCopied` flag and its 1.5-second timer reset: timer-driven display state.
- `alert` and `console.error` on a failed paste, and all rendering: the JSX, the role `<select>`, the `<textarea>`, CSS classes and React's use of `id` as a row key. The model keeps only the uniqueness of the ids (`Turns.PositionalIdsDistinct`).
