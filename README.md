# Table borders and table of contents of a WordprocessingML writer

This project models two parts of the docx-rs document writer in Dafny and proves what they
promise.

- **Table borders** (`w:tblBorders`, ECMA-376 Part 1, 17.4). A `TableBorder` has a style, a
  size, a spacing, a colour and a fixed position. A `TableBorders` collection keeps one optional
  border per position: top, left, bottom, right, insideH and insideV.
  - `new` fills every slot with the default border of its position. `with_empty` leaves every
    slot absent.
  - `set` stores a border in the slot its own position names.
  - `clear` and `clear_all` store a fresh border with style `nil`. They do not empty the slot.
  - `build` emits the present slots in the fixed schema order.
- **Table of contents** (a structured content tag, ECMA-376 Part 1, 17.5.2, hosting a TOC
  field, 17.16). It is configured by methods that each set one field.
  - With no items, `build` emits the placeholder field code in two paragraphs: begin (dirty),
    instruction, separate; then end.
  - Otherwise `build` emits the items in order. Each carries the table's instruction and dirty
    flag, and the table's page-reference placeholder when the item has no page reference.

The output is modelled as a tree, not as bytes.
- The borders module uses an element tree with ordered attributes (module `Xml`, `xml.dfy`).
- The table of contents uses a typed tree of tag, paragraphs, runs and field characters
  (`table_of_contents.dfy`).

Where the source changes an object in place (`mut self` setters on the two collections), the
model is a class with the same fields and `modifies this` methods.
- `TableBorders` methods are specified against a pure edit layer. `Apply` and `ApplyAll` work on
  the `BorderSlots` value, and lemmas prove the properties of that layer.
- The `build` functions read the object and are tied to reference renderings.
- Each rendering has an inverse or an independent view:
  - `ParseBorders` reads a borders element back; the round trip is proved.
  - `FieldCode`, `Entries` and `ParagraphCount` view the table-of-contents content.

## Model

| member | source | states |
|---|---|---|
| Xml.Decimal | docx-core/src/documents/elements/table_borders.rs:192 | the decimal spelling of a size or spacing is a non-empty digit string, one digit exactly for values below ten |
| Xml.DecimalRoundTrip | docx-core/src/documents/elements/table_borders.rs:57-82 | reading the spelled number back gives the number, so distinct sizes render distinctly |
| TableBorders.RenderOrderListsEveryPositionOnce | docx-core/src/documents/elements/table_borders.rs:168-173 | the emission order names every position, and each exactly once |
| TableBorders.ElementNameRoundTrip | docx-core/src/documents/elements/table_borders.rs:60-79 | each position renders as its own element name, distinct from the others |
| TableBorders.KeywordRoundTrip | docx-core/src/documents/elements/table_borders.rs:62-77 | each modelled border style renders as its own `w:val` keyword |
| TableBorders.TableBorder.New | docx-core/src/documents/elements/table_borders.rs:31-39 | a new border has the given position, style single, size 2, spacing 0 and colour 000000 |
| TableBorders.TableBorder.WithColor | docx-core/src/documents/elements/table_borders.rs:41-44 | the colour becomes the given one; every other field, position and spacing included, is unchanged |
| TableBorders.TableBorder.WithSize | docx-core/src/documents/elements/table_borders.rs:46-49 | the size becomes the given one; every other field is unchanged |
| TableBorders.TableBorder.WithBorderType | docx-core/src/documents/elements/table_borders.rs:51-54 | the style becomes the given one; every other field is unchanged |
| TableBorders.TableBorder.Build | docx-core/src/documents/elements/table_borders.rs:57-82 | the element is named by the border's position, has no children and carries four attributes |
| TableBorders.BorderRoundTrip | docx-core/src/documents/elements/table_borders.rs:57-82 | the element loses nothing: parsing it gives back the border, position included |
| TableBorders.NilBorder | docx-core/src/documents/elements/table_borders.rs:137 | the border `clear` stores at p has position p, style nil and the default size 2, spacing 0 and colour 000000 |
| TableBorders.BorderSlots.Put | docx-core/src/documents/elements/table_borders.rs:124-147 | replacing one slot gives that slot the new value and leaves the other five as they were |
| TableBorders.SlotsEqual | docx-core/src/documents/elements/table_borders.rs:84-93 | two collections are equal when they agree at every position |
| TableBorders.DefaultSlots | docx-core/src/documents/elements/table_borders.rs:95-106 | the `new()` slots hold at every position the new border of that same position |
| TableBorders.AllNilSlots | docx-core/src/documents/elements/table_borders.rs:149-161 | the `clear_all()` slots hold at every position the nil border of that same position |
| TableBorders.DefaultSlotsAreDefaults | docx-core/src/documents/elements/table_borders.rs:31-39 | `new()` holds at every position p the border single, size 2, spacing 0, colour 000000 at position p; `with_empty()` holds nothing; both keep every border in its own slot |
| TableBorders.Apply | docx-core/src/documents/elements/table_borders.rs:124-147 | `set(b)` stores b in the slot of b's position; `clear(p)` stores the nil border of p; the target slot is present afterwards; no other slot changes; the slot-position invariant is kept |
| TableBorders.ApplyTwo | docx-core/src/documents/elements/table_borders.rs:198-200 | a chain of two edits is the second applied after the first |
| TableBorders.ClearEdits | docx-core/src/documents/elements/table_borders.rs:149-161 | one clear per listed position, in order |
| TableBorders.ClearForgetsPrevious | docx-core/src/documents/elements/table_borders.rs:136-147 | `clear(p)` yields style nil, size 2, spacing 0, colour 000000 whatever the slot held before |
| TableBorders.SetIdempotent | docx-core/src/documents/elements/table_borders.rs:124-134 | `set(b).set(b) == set(b)` |
| TableBorders.UntouchedSlotUnchanged | docx-core/src/documents/elements/table_borders.rs:124-147 | a slot that no edit of a chain targets ends as it began |
| TableBorders.EditsKeepWellKeyed | docx-core/src/documents/elements/table_borders.rs:97-160 | every chain of `set` and `clear` keeps each present border in the slot of its own position |
| TableBorders.ClearEditsOverwrite | docx-core/src/documents/elements/table_borders.rs:136-161 | clearing a list of positions makes exactly those slots nil borders and leaves the rest |
| TableBorders.ClearAllIsEveryClear | docx-core/src/documents/elements/table_borders.rs:149-161 | `clear_all()` equals `clear` of each of the six positions, from any collection, and leaves every slot present with style nil |
| TableBorders.BuildAll | docx-core/src/documents/elements/table_borders.rs:168-173 | one element per border, in the same order |
| TableBorders.BuildAllAppend | docx-core/src/documents/elements/table_borders.rs:168-173 | rendering a concatenation renders each part in turn |
| TableBorders.OptionalChild | docx-core/src/documents/elements/table_borders.rs:168 | an absent slot contributes no element, a present one exactly its border's element |
| TableBorders.PresentBorders | docx-core/src/documents/elements/table_borders.rs:168-173 | length bound: the borders emitted for an order number at most one per position of the order (what they are is stated by `PresentComesFrom` and `PresentInRenderOrder`) |
| TableBorders.PresentStep | docx-core/src/documents/elements/table_borders.rs:168-173 | the borders of an order are the first position's border, if present, then those of the rest |
| TableBorders.PresentInRenderOrder | docx-core/src/documents/elements/table_borders.rs:166-175 | the present borders in schema order are top, left, bottom, right, insideH, insideV, each only if present |
| TableBorders.RenderSlots | docx-core/src/documents/elements/table_borders.rs:164-177 | the reference rendering: a `w:tblBorders` wrapper without attributes and at most one child per position; `RenderRoundTrip` shows it loses nothing |
| TableBorders.Restrict | docx-core/src/documents/elements/table_borders.rs:164-177 | step of the `RenderRoundTrip` proof: the slots restricted to a list of positions agree with the original on the list and are absent elsewhere |
| TableBorders.PresentComesFrom | docx-core/src/documents/elements/table_borders.rs:164-177 | for a collection that keeps borders in their own slots, every emitted border has a position of the order and is exactly the border held by the slot of that position |
| TableBorders.ParseSlotsTake | docx-core/src/documents/elements/table_borders.rs:164-177 | step of the `RenderRoundTrip` proof: an element that parses to the border of the next expected position fills that slot |
| TableBorders.ParseSlotsSkip | docx-core/src/documents/elements/table_borders.rs:164-177 | step of the `RenderRoundTrip` proof: an expected position whose element is not next is read as absent |
| TableBorders.PresentHead | docx-core/src/documents/elements/table_borders.rs:164-177 | step of the `RenderRoundTrip` proof: the elements of an order are the first slot's element, if present, then those of the rest |
| TableBorders.DistinctTail | docx-core/src/documents/elements/table_borders.rs:164-177 | step of the `RenderRoundTrip` proof: in an order without repeats the first position does not recur |
| TableBorders.RestrictHead | docx-core/src/documents/elements/table_borders.rs:164-177 | step of the `RenderRoundTrip` proof: restricting to an order is restricting to its tail and then putting back the head slot |
| TableBorders.PutAbsent | docx-core/src/documents/elements/table_borders.rs:164-177 | step of the `RenderRoundTrip` proof: emptying an absent slot changes nothing |
| TableBorders.ParsePresent | docx-core/src/documents/elements/table_borders.rs:164-177 | reading back the elements of an order without repeats gives exactly the slots of that order |
| TableBorders.RenderRoundTrip | docx-core/src/documents/elements/table_borders.rs:164-177 | the borders element loses nothing: every collection that keeps borders in their own slots is read back unchanged, absences included |
| TableBorders.EmptyRendersNoChildren | docx-core/src/documents/elements/table_borders.rs:113-122 | a `with_empty()` collection renders a wrapper with no children |
| TableBorders.TableBorders.constructor | docx-core/src/documents/elements/table_borders.rs:95-111 | `new()` holds the default border of each position in its slot |
| TableBorders.TableBorders.WithEmpty | docx-core/src/documents/elements/table_borders.rs:113-122 | `with_empty()` holds no border at all |
| TableBorders.TableBorders.Set | docx-core/src/documents/elements/table_borders.rs:124-134 | the new slots are `Apply` of `set(border)` to the old ones; the slot-position invariant is kept |
| TableBorders.TableBorders.Clear | docx-core/src/documents/elements/table_borders.rs:136-147 | the new slots are `Apply` of `clear(position)` to the old ones; the slot-position invariant is kept |
| TableBorders.TableBorders.ClearAll | docx-core/src/documents/elements/table_borders.rs:149-161 | the new slots are the six clears applied to the old ones; the invariant holds afterwards |
| TableBorders.TableBorders.Build | docx-core/src/documents/elements/table_borders.rs:164-177 | the element is the reference rendering of the current slots: present slots in schema order, absent ones omitted; for a valid collection, reading it back gives the current slots |
| TableBorders.DefaultBorderElement | docx-core/src/documents/elements/table_borders.rs:31-39 | a default border renders `val="single" sz="2" space="0" color="000000"`, a cleared one the same with `val="nil"` |
| TableBorders.PresentAllSix | docx-core/src/documents/elements/table_borders.rs:166-175 | with every slot present all six borders are emitted, in schema order |
| TableBorders.BuildSix | docx-core/src/documents/elements/table_borders.rs:166-175 | six borders render as their six elements, in order |
| TableBorders.DefaultElements | docx-core/src/documents/elements/table_borders.rs:187-194 | the six default borders render as the six `single` elements of the expected output, in order |
| TableBorders.RenderAllDefaults | docx-core/src/documents/elements/table_borders.rs:187-194 | six default borders in their own slots render as the six `single` elements of the expected output |
| TableBorders.DefaultRender | docx-core/src/documents/elements/table_borders.rs:187-194 | `new().build()` is the six default elements in schema order |
| TableBorders.LeftColouredTopNilElements | docx-core/src/documents/elements/table_borders.rs:196-206 | the default borders with top nil and left coloured AAAAAA render as the six expected elements, in order |
| TableBorders.RenderLeftColouredTopNil | docx-core/src/documents/elements/table_borders.rs:196-206 | the slots with top nil and left coloured AAAAAA render as the expected six elements |
| TableBorders.SetLeftClearTopRender | docx-core/src/documents/elements/table_borders.rs:196-206 | setting a coloured left border and clearing top changes only those two elements |
| TableBorders.BuildDefault | docx-core/src/documents/elements/table_borders.rs:187-194 | building a new collection gives the six default elements |
| TableBorders.BuildSetLeftClearTop | docx-core/src/documents/elements/table_borders.rs:196-206 | building after `set(left coloured AAAAAA)` and `clear(top)` gives the expected elements |
| Toc.InstrToC.WithHeadingStylesRange | docx-core/src/documents/elements/table_of_contents.rs:24-27 | the instruction takes the heading range (start, end); its other settings are unchanged |
| Toc.InstrToC.AddStyleWithLevel | docx-core/src/documents/elements/table_of_contents.rs:29-32 | the style is appended after the existing ones; the other settings are unchanged |
| Toc.InstrToC.WithHyperlink | docx-core/src/documents/elements/table_of_contents.rs:34-37 | the hyperlink switch is on; the other settings are unchanged |
| Toc.Finalize | docx-core/src/documents/elements/table_of_contents.rs:93-100 | a rendered item keeps its text, takes the table's instruction and dirty flag whatever its own, and keeps its page reference if it has one, else takes the placeholder |
| Toc.Propagate | docx-core/src/documents/elements/table_of_contents.rs:90-102 | one rendered item per stored item, in order: same text, the table's instruction and dirty flag whatever the item's own, its own page reference if any and the table's placeholder (possibly none) otherwise |
| Toc.PropagateAppend | docx-core/src/documents/elements/table_of_contents.rs:90-102 | items are rendered independently: rendering a concatenation renders each part |
| Toc.PlaceholderParagraphs | docx-core/src/documents/elements/table_of_contents.rs:72-78 | two paragraphs of one run each: begin (dirty), instruction and separate (not dirty) in the first, end (not dirty) alone in the second |
| Toc.PlaceholderIsFieldCode | docx-core/src/documents/elements/table_of_contents.rs:71-88 | the placeholder is begin (dirty), instruction, separate (not dirty), end (not dirty), in two paragraphs: the first three in the first, end in the second; no item |
| Toc.EntriesContent | docx-core/src/documents/elements/table_of_contents.rs:103-110 | one content child per item, in order |
| Toc.EntriesContentHasNoFieldCode | docx-core/src/documents/elements/table_of_contents.rs:103-110 | a content made of items holds no placeholder paragraph and no field character of its own, and gives its items back in order; what each item renders is not part of this view |
| Toc.TableOfContents.constructor | docx-core/src/documents/elements/table_of_contents.rs:9-22 | `new()` has the default instruction, no items, both flags off, no alias, no placeholder |
| Toc.TableOfContents.HeadingStylesRange | docx-core/src/documents/elements/table_of_contents.rs:24-27 | only the instruction changes, by taking the heading range |
| Toc.TableOfContents.AddStyleWithLevel | docx-core/src/documents/elements/table_of_contents.rs:29-32 | only the instruction changes, by appending the style |
| Toc.TableOfContents.Hyperlink | docx-core/src/documents/elements/table_of_contents.rs:34-37 | only the instruction changes, by switching hyperlinks on |
| Toc.TableOfContents.Alias | docx-core/src/documents/elements/table_of_contents.rs:39-42 | the alias becomes `Some(a)`; nothing else changes |
| Toc.TableOfContents.AddItem | docx-core/src/documents/elements/table_of_contents.rs:49-52 | the item is appended after the existing ones, which keep their order; nothing else changes |
| Toc.TableOfContents.Auto | docx-core/src/documents/elements/table_of_contents.rs:54-57 | the auto flag is on; nothing else changes |
| Toc.TableOfContents.Dirty | docx-core/src/documents/elements/table_of_contents.rs:59-62 | the dirty flag is on; nothing else changes |
| Toc.TableOfContents.Build | docx-core/src/documents/elements/table_of_contents.rs:66-112 | the alias is the stored one, so it appears exactly when set. Without items the content is two one-run paragraphs, begin (dirty), instruction and separate (not dirty) in the first and end (not dirty) alone in the second, and no item. With items there is no placeholder paragraph at the content level, and the items are the stored ones propagated, one for one and in order; what each item renders is not modelled |
| Toc.BuildPathsExclusive | docx-core/src/documents/elements/table_of_contents.rs:71-111 | a built table's content holds placeholder paragraphs of its own or items, never both and never neither |
| Toc.AddItemRendersAfter | docx-core/src/documents/elements/table_of_contents.rs:49-52 | after `add_item` the earlier items render as before and the new one renders after them |
| Toc.BuildHeadingRangeOneToThree | docx-core/src/documents/elements/table_of_contents.rs:123-131 | `new().heading_styles_range(1, 3).build()` is the placeholder with instruction range 1-3 and no alias |

## Left out

- Byte-level XML text and escaping (for example `&quot;` in the instruction text) are left
  out. They are the XML builder's job, and the builder is not part of this model. The empty
  `w:tblBorders` element's text form therefore is not modelled either.
- The fixed `w14:paraId`, the empty `w:pPr`/`w:rPr` children and the rest of
  `StructuredDataTagProperty` are left out. Those types are not part of this model; of the tag
  properties only the alias is kept.
- `InstrToC`'s text form (`TOC \o "1-3"` and its other switches) and its other setters are
  left out; `InstrToC` is not part of this model. The instruction is a value with the three
  settings the table of contents forwards.
- How a `TableOfContentsItem` renders itself is left out; its source is not part of this model.
  Items appear in the content as values after propagation.
- `FieldCode` and `ParagraphCount` see only the content's own paragraphs (the placeholder). An
  item is an opaque leaf: its own rendering, which carries the propagated instruction and dirty
  flag and presumably field characters of its own, is not modelled. So "no paragraph" in the
  with-items branch means no placeholder paragraph at the content level, not an output without
  paragraphs.
- `TableOfContentsItem` and `InstrToC` are reduced stand-ins, not the source's field lists. The
  item keeps the three fields `build` touches (`instr`, `dirty`, `page_ref`) plus a `text` field
  standing for its content. The instruction keeps the three settings the table forwards. The
  meaning of its setters (set the range, append a style, switch hyperlinks on) is assumed from
  their names, since their source is not part of this model.
- `BorderType` covers nil, single, thick, double, dotted and dashed. The rest of the
  enumeration is not modelled; its source is not part of this model.
- `usize` sizes and spacings are `nat`. Overflow cannot arise in these operations.
- TableBorders.TableBorder.WithColor: `TableBorder` and its `color`/`size`/`border_type` setters are modelled as a value with update functions, not as a class. The setters take the border by value and hand it back, and the collection stores it by value, so nothing is shared and a value says the same.
- Toc.TableOfContents.Build: building twice gives the same result and does not change the stored items. This holds by construction, because a Dafny function only reads the object; there is no separate lemma.
- `auto` is stored but `build` never reads it. The model stores it the same way.
- `page_ref_placeholder` has no setter in the source, only a public field. The model keeps it as a field that only the constructor sets.
- The commented-out `tc_field_level_range` setter (table_of_contents.rs:44-47) is not modelled.
- Serde serialisation (`Serialize`/`Deserialize`), `PageMargin`, `McFallback` (its `build` returns nothing), package writing in the integration tests and the WebAssembly/JavaScript bindings are outside the modelled core.
