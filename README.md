# Form-to-JSON product form: a Dafny model of its state transitions

The repository is a single-page form for entering a travel "product" (name, type, price,
an itinerary of numbered days, inclusions, exclusions) next to a live JSON view of it.
All of its logic sits in the `Form` component, which owns two state cells: `formData`, the
record, which each edit handler replaces wholesale, and `jsonOutput`, its serialized text.
Only `formData` is modelled. This project models that record, the handlers as pure
transforms over it, and the state cell as a class whose one field each handler overwrites.

- `options.dfy`, module `Options`: the optional value used for TypeScript's optional
  properties and for a missing or unparsable token.
- `keys.dfy`, module `Keys`: the input names the component generates and decodes.
  `Split` is `split("-")`, `ParseDay` is `parseInt(day, 10)` on leading decimal digits
  (None stands for NaN), and `ItemKey`/`ItineraryKey` build `"<field>-<day>"` and
  `"productItinerary-<field>"`, each proved to decode back to what it encodes.
- `form_record.dfy`, module `FormRecord`: the `FormData`, `Itinerary` and
  `ItineraryItem` shapes, the product types and icon keys, the initial, reset and
  demonstration records, and the top-level field patch with its last-write-wins lemma.
- `itinerary.dfy`, module `ItineraryEditor`: appending a day; removing a day, which is a
  filter followed by renumbering; patching one field of the first entry with a given
  day; and patching the itinerary's summary or image. Each transform is proved to keep
  `WellFormed` (the day list is present and numbered 1..n). On such lists, removal drops
  exactly one entry or nothing.
- `form.dfy`, module `FormComponent`: class `Form` with the single field `formData`. Its
  methods assign the transforms and keep `Valid()` (the `WellFormed` invariant).

Behaviour of the code worth noting:
- `addItinerary` on an absent day list appends day 1 (`?? []`). It is not a no-op.
- `removeItinerary` drops every entry with the day, not only one.
- The day token needs only leading digits, so `"icon-2x"` addresses day 2.
- `productType` holds any string; the selector offers only `""` and the five labels.

## Model

| member | source | states |
|---|---|---|
| Keys.Split | src/app/components/Form/index.tsx:182 | splitting on '-' gives at least one piece and no piece contains '-' |
| Keys.JoinSplit | src/app/components/Form/index.tsx:182 | joining the pieces of a split with '-' gives back the original name |
| Keys.SplitJoin | src/app/components/Form/index.tsx:182 | splitting a '-'-join of dash-free pieces gives back exactly those pieces |
| Keys.LeadingDigits | src/app/components/Form/index.tsx:183 | the result is the length of the maximal run of digits at the start of the token |
| Keys.ParseDay | src/app/components/Form/index.tsx:183 | parseInt gives NaN (None) exactly when the token is empty or starts with a non-digit, else the value of the leading digits |
| Keys.DecimalValueOfDecimal | src/app/components/Form/index.tsx:183 | the value of a day number's decimal text is that number |
| Keys.ParseDecimal | src/app/components/Form/index.tsx:183 | parsing a number's decimal text, followed by a non-digit or nothing, yields that number |
| Keys.Decimal | src/app/components/Form/index.tsx:357 | a day's decimal text is non-empty, all digits and dash-free |
| Keys.ParseTopField | src/app/components/Form/index.tsx:81-82 | an input name maps to a top-level field exactly when it is that field's name |
| Keys.ParseItemField | src/app/components/Form/index.tsx:201-204 | a type token maps to icon, image or content exactly when it is that field's name |
| Keys.ParseItineraryField | src/app/components/Form/index.tsx:225-228 | a token maps to summary or image exactly when it is that field's name |
| Keys.DecodeItemKey | src/app/components/Form/index.tsx:181-183 | the type is the first piece; the day is None when there is no second piece, and otherwise the parseInt of the second piece |
| Keys.ItemKey | src/app/components/Form/index.tsx:357-401 | the generated name for a day's field decodes to that field name and that day |
| Keys.ItineraryFieldOf | src/app/components/Form/index.tsx:219-221 | the addressed itinerary field is read from the second piece only; no second piece means none |
| Keys.ItineraryKey | src/app/components/Form/index.tsx:296-305 | the generated `productItinerary-<field>` name decodes to that field |
| FormRecord.IconKey | src/app/components/Form/index.tsx:373-376 | each icon key is the lower-cased product type label |
| FormRecord.KindsDistinct | src/app/components/Form/index.tsx:23-37 | different product types have different labels and different icon keys |
| FormRecord.InitialState | src/app/components/Form/index.tsx:62-73 | the initial record is the empty record and well formed |
| FormRecord.ResetState | src/app/components/Form/index.tsx:96-108 | the reset record is the empty record and well formed |
| FormRecord.ResetIsInitial | src/app/components/Form/index.tsx:62-108 | reset gives the initial state, and the empty record is unique |
| FormRecord.DemoState | src/app/components/Form/index.tsx:110-135 | the demonstration record is well formed with two days; its type is the Cruise label; its icons are the cruise and accommodation keys; it has no inclusions or exclusions |
| FormRecord.SetField | src/app/components/Form/index.tsx:80-89 | the named field takes the value; the other top-level fields, the itinerary and the lists are unchanged; well-formedness is kept |
| FormRecord.HandleChange | src/app/components/Form/index.tsx:80-89 | the field whose name is the input's name takes the value and every other field is unchanged |
| FormRecord.LastWriteWins | src/app/components/Form/index.tsx:80-89 | after any sequence of patches each field holds its last written value (or its old one); the itinerary and the lists are untouched |
| ItineraryEditor.AddItinerary | src/app/components/Form/index.tsx:137-156 | exactly one entry is appended with day n+1 (1 for an absent list) and empty icon, image and content; the prior entries, summary, image and top-level fields are unchanged |
| ItineraryEditor.Filter | src/app/components/Form/index.tsx:159-161 | the result is no longer than the input and holds no entry with the removed day |
| ItineraryEditor.FilterMembers | src/app/components/Form/index.tsx:159-161 | an entry is kept exactly when it is in the list and its day differs |
| ItineraryEditor.FilterAppend | src/app/components/Form/index.tsx:159-161 | filtering distributes over concatenation, so relative order is kept |
| ItineraryEditor.FilterNoMatch | src/app/components/Form/index.tsx:159-161 | a list with no entry for the day is unchanged by the filter |
| ItineraryEditor.FilterUnique | src/app/components/Form/index.tsx:159-161 | when one index holds the only entry for the day, exactly that entry is dropped |
| ItineraryEditor.Renumber | src/app/components/Form/index.tsx:164-167 | renumbering keeps the length, numbers 1..m, changes nothing but the day, and leaves a contiguous list as it is |
| ItineraryEditor.RemoveDay | src/app/components/Form/index.tsx:158-167 | the survivors are the filtered entries in order, numbered 1..m, with their icon, image and content |
| ItineraryEditor.RemoveInRange | src/app/components/Form/index.tsx:158-167 | on a list numbered 1..n, removing day d in 1..n leaves n-1 entries numbered 1..n-1: those before d unchanged, later ones shifted down and renumbered |
| ItineraryEditor.RemoveOutOfRange | src/app/components/Form/index.tsx:158-167 | on a list numbered 1..n, removing a day outside 1..n gives the identical list |
| ItineraryEditor.RemoveItinerary | src/app/components/Form/index.tsx:158-176 | an absent list stays absent; otherwise the list becomes the renumbered survivors; summary, image and top-level fields are unchanged; well-formedness is kept |
| ItineraryEditor.FindDay | src/app/components/Form/index.tsx:184-193 | the result is the index of the first entry whose day equals the parsed day, and None exactly when no entry matches (always for NaN) |
| ItineraryEditor.SetItemField | src/app/components/Form/index.tsx:201-204 | the named field takes the value; the day and the other two fields keep theirs |
| ItineraryEditor.ChangeItineraryItem | src/app/components/Form/index.tsx:178-217 | no-op for NaN or an unmatched day; otherwise only the named field of the first matching entry changes, the length and all other entries and fields are unchanged |
| ItineraryEditor.ChangeByGeneratedKey | src/app/components/Form/index.tsx:178-217 | on a well-formed record the generated key for day d edits index d-1 when 1 <= d <= n, and changes nothing otherwise |
| ItineraryEditor.ChangeProductItinerary | src/app/components/Form/index.tsx:219-230 | only the named itinerary field takes the value; the other one, the day list and the top-level fields are unchanged |
| ItineraryEditor.AcmeCruiseSession | src/app/components/Form/index.tsx:80-176 | a session of name/type patches, two adds, a content edit of day 1 and removal of day 1 leaves the old day 2 renumbered as day 1 |
| FormComponent.Form.constructor | src/app/components/Form/index.tsx:62-73 | the state cell starts with the initial record and satisfies the invariant |
| FormComponent.Form.HandleChange | src/app/components/Form/index.tsx:80-83 | the state becomes the patched record and the invariant is kept |
| FormComponent.Form.HandleSelectChange | src/app/components/Form/index.tsx:85-89 | the selector patches the state as a text input does and keeps the invariant |
| FormComponent.Form.HandleReset | src/app/components/Form/index.tsx:96-108 | from any prior state it becomes the empty record equal to the initial one, which satisfies the invariant |
| FormComponent.Form.HandleFillForm | src/app/components/Form/index.tsx:110-135 | from any prior state it becomes the demonstration record, which satisfies the invariant |
| FormComponent.Form.AddItinerary | src/app/components/Form/index.tsx:137-156 | the day list gains day n+1 at its end and stays numbered 1..n+1 |
| FormComponent.Form.RemoveItinerary | src/app/components/Form/index.tsx:158-176 | removing an existing day shortens the list by one; any other day leaves the state unchanged; numbering stays contiguous |
| FormComponent.Form.HandleItineraryChange | src/app/components/Form/index.tsx:178-217 | the state becomes the day-field patch, the length is kept and numbering stays contiguous |
| FormComponent.Form.HandleProductItineraryChange | src/app/components/Form/index.tsx:219-230 | the state becomes the summary/image patch and the day list is unchanged |

## Left out

- JSON output: the second state cell `jsonOutput`, the `useEffect` that recomputes it and `handleGenerateJson` (src/app/components/Form/index.tsx:74-78, 91-94) are not modelled; `JSON.stringify` is a library call and React schedules the effect.
- `console.log` (src/app/components/Form/index.tsx:87, 92) is output only.
- Rendering: the JSX, the MUI controls, `next/image` and the `PRODUCT_ICONS` element map. Only the values the selectors store are kept (labels and lower-cased icon keys).
- FormRecord.HandleChange: requires the input name to be one of the three top-level field names. With any other name the source adds or overwrites a property (`productItinerary` among them), which the fixed record cannot hold.
- ItineraryEditor.ChangeItineraryItem: requires the type token to be `icon`, `image` or `content`. Any other token would add or overwrite a property of the entry (`day` included), which the fixed record cannot hold. The day token is not restricted.
- ItineraryEditor.ChangeProductItinerary: requires the second piece to be `summary` or `image`. Other tokens, including a missing one (the `undefined` key), would add or overwrite a property of the itinerary.
- Keys.ParseDay: models `parseInt(s, 10)` only as leading decimal digits. Skipping leading whitespace, a sign and floating-point precision for very long digit runs are not modelled.
- Day numbers are unbounded integers rather than JavaScript doubles.
- `indexOf(targetItinerary)` compares by reference. The model uses the index of the first entry whose day matches, which is the element `find` returned.
- React state updates are taken to apply one at a time to the current state; event batching and stale render closures are not modelled.
- src/app/page.tsx (layout only) and next.config.ts (image-host allowlist) are not part of this model.
