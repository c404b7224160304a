/**
  The table of contents: a structured content tag (ECMA-376 Part 1, 17.5.2) hosting a
  TOC field (17.16). Without items it renders the placeholder field-code pair a word
  processor re-evaluates on open; with items it renders the items, each carrying the
  table's own instruction and dirty flag.
 */
module Toc {
  import opened Xml

  /** An extra style to collect, with the outline level it maps to. */
  datatype StyleWithLevel = StyleWithLevel(style: string, level: nat)

  /**
    The TOC field instruction. Its text form (`TOC \o "1-3"` and further switches) is
    rendered by the instruction itself and is not part of this model; here it is a value.
   */
  datatype InstrToC = InstrToC(
    headingStylesRange: Option<(nat, nat)>,
    stylesWithLevels: seq<StyleWithLevel>,
    hyperlink: bool)
  {
    function WithHeadingStylesRange(start: nat, end: nat): (r: InstrToC)
      ensures r.headingStylesRange == Some((start, end))
      ensures r.(headingStylesRange := headingStylesRange) == this
    {
      this.(headingStylesRange := Some((start, end)))
    }

    function AddStyleWithLevel(s: StyleWithLevel): (r: InstrToC)
      ensures r.stylesWithLevels == stylesWithLevels + [s]
      ensures r.(stylesWithLevels := stylesWithLevels) == this
    {
      this.(stylesWithLevels := stylesWithLevels + [s])
    }

    function WithHyperlink(): (r: InstrToC)
      ensures r.hyperlink
      ensures r.(hyperlink := hyperlink) == this
    {
      this.(hyperlink := true)
    }
  }

  const DefaultInstr: InstrToC := InstrToC(None, [], false)

  /** One entry of the table: its text plus the field state it is rendered with. */
  datatype TableOfContentsItem = TableOfContentsItem(
    text: string,
    instr: InstrToC,
    dirty: bool,
    pageRef: Option<string>)

  datatype FieldCharType = Begin | Separate | End

  /** What a run holds here: a field character with its dirty flag, or the instruction text. */
  datatype RunChild = FieldChar(charType: FieldCharType, dirty: bool) | InstrText(instr: InstrToC)

  datatype Run = Run(children: seq<RunChild>)

  datatype Paragraph = Paragraph(runs: seq<Run>)

  /** A child of the content element: a paragraph, or an item rendered by itself. */
  datatype ContentChild = Para(paragraph: Paragraph) | Entry(item: TableOfContentsItem)

  /** The structured content tag: its properties (only the alias is modelled) and its content. */
  datatype StructuredTag = StructuredTag(alias: Option<string>, content: seq<ContentChild>)

  /**
    An item as rendered inside a table: its own text, the table's instruction and dirty
    flag whatever its own, and its own page reference if it has one, else the placeholder.
   */
  function Finalize(item: TableOfContentsItem, instr: InstrToC, dirty: bool, placeholder: Option<string>): (r: TableOfContentsItem)
    ensures r.text == item.text && r.instr == instr && r.dirty == dirty
    ensures r.pageRef == if item.pageRef.Some? then item.pageRef else placeholder
  {
    item.(instr := instr, dirty := dirty,
          pageRef := if item.pageRef.None? then placeholder else item.pageRef)
  }

  /**
    The items as rendered: one per stored item, in the same order, each with the table's
    instruction and dirty flag whatever its own, its own text, and its own page reference
    when it has one and the placeholder (possibly none) otherwise.
   */
  function Propagate(items: seq<TableOfContentsItem>, instr: InstrToC, dirty: bool,
                     placeholder: Option<string>): (r: seq<TableOfContentsItem>)
    ensures |r| == |items|
    ensures forall k :: 0 <= k < |r| ==>
              r[k].text == items[k].text && r[k].instr == instr && r[k].dirty == dirty
    ensures forall k :: 0 <= k < |r| ==>
              r[k].pageRef == if items[k].pageRef.Some? then items[k].pageRef else placeholder
    decreases |items|
  {
    if items == [] then []
    else [Finalize(items[0], instr, dirty, placeholder)] + Propagate(items[1..], instr, dirty, placeholder)
  }

  /** Rendering an item list in two parts renders each part on its own. */
  lemma PropagateAppend(a: seq<TableOfContentsItem>, b: seq<TableOfContentsItem>, instr: InstrToC,
                        dirty: bool, placeholder: Option<string>)
    ensures Propagate(a + b, instr, dirty, placeholder)
         == Propagate(a, instr, dirty, placeholder) + Propagate(b, instr, dirty, placeholder)
  {
    var l, r := Propagate(a + b, instr, dirty, placeholder), Propagate(a, instr, dirty, placeholder) + Propagate(b, instr, dirty, placeholder);
    forall k | 0 <= k < |l| ensures l[k] == r[k] {
      if k < |a| {
        assert (a + b)[k] == a[k];
      } else {
        assert (a + b)[k] == b[k - |a|];
      }
    }
  }

  /**
    The layout of the placeholder: two paragraphs of one run each; the first run holds
    begin (dirty), the instruction and separate (not dirty), the second only end (not dirty).
   */
  predicate PlaceholderLayout(c: seq<ContentChild>, instr: InstrToC) {
    |c| == 2 && c[0].Para? && c[1].Para?
    && |c[0].paragraph.runs| == 1 && |c[1].paragraph.runs| == 1
    && c[0].paragraph.runs[0].children == [FieldChar(Begin, true), InstrText(instr), FieldChar(Separate, false)]
    && c[1].paragraph.runs[0].children == [FieldChar(End, false)]
  }

  /** The two placeholder paragraphs of an empty table. */
  function PlaceholderParagraphs(instr: InstrToC): (c: seq<ContentChild>)
    ensures PlaceholderLayout(c, instr)
  {
    [Para(Paragraph([Run([FieldChar(Begin, true), InstrText(instr), FieldChar(Separate, false)])])),
     Para(Paragraph([Run([FieldChar(End, false)])]))]
  }

  function RunsChildren(runs: seq<Run>): seq<RunChild>
    decreases |runs|
  {
    if runs == [] then [] else runs[0].children + RunsChildren(runs[1..])
  }

  /**
    The field code of the content's own paragraphs, in document order. An item is an opaque
    leaf here: what it renders itself (its own paragraph with the propagated instruction and
    dirty flag) is not part of this view.
   */
  function FieldCode(content: seq<ContentChild>): seq<RunChild>
    decreases |content|
  {
    if content == [] then []
    else (match content[0]
          case Para(p) => RunsChildren(p.runs)
          case Entry(_) => []) + FieldCode(content[1..])
  }

  /** The items of a content, in order. */
  function Entries(content: seq<ContentChild>): seq<TableOfContentsItem>
    decreases |content|
  {
    if content == [] then []
    else (match content[0]
          case Para(_) => []
          case Entry(item) => [item]) + Entries(content[1..])
  }

  /** The number of the content's own paragraphs; paragraphs an item renders are not counted. */
  function ParagraphCount(content: seq<ContentChild>): nat
    decreases |content|
  {
    if content == [] then 0
    else (if content[0].Para? then 1 else 0) + ParagraphCount(content[1..])
  }

  /**
    The placeholder is the complete field-code protocol: begin (dirty), the instruction,
    separate, end (both not dirty), in that order, split over exactly two paragraphs with
    begin, instruction and separate in the first and end in the second.
   */
  lemma PlaceholderIsFieldCode(instr: InstrToC)
    ensures FieldCode(PlaceholderParagraphs(instr))
         == [FieldChar(Begin, true), InstrText(instr), FieldChar(Separate, false), FieldChar(End, false)]
    ensures ParagraphCount(PlaceholderParagraphs(instr)) == 2
    ensures Entries(PlaceholderParagraphs(instr)) == []
    ensures RunsChildren(PlaceholderParagraphs(instr)[0].paragraph.runs)
         == [FieldChar(Begin, true), InstrText(instr), FieldChar(Separate, false)]
    ensures RunsChildren(PlaceholderParagraphs(instr)[1].paragraph.runs) == [FieldChar(End, false)]
    ensures |PlaceholderParagraphs(instr)[0].paragraph.runs| == 1
    ensures |PlaceholderParagraphs(instr)[1].paragraph.runs| == 1
  {
    var c := PlaceholderParagraphs(instr);
    var r1 := [Run([FieldChar(Begin, true), InstrText(instr), FieldChar(Separate, false)])];
    var r2 := [Run([FieldChar(End, false)])];
    assert r1[1..] == [] && r2[1..] == [];
    assert RunsChildren(r1) == [FieldChar(Begin, true), InstrText(instr), FieldChar(Separate, false)];
    assert RunsChildren(r2) == [FieldChar(End, false)];
    assert c[1..][1..] == [];
    assert FieldCode(c[1..]) == [FieldChar(End, false)];
    assert ParagraphCount(c[1..]) == 1 && Entries(c[1..]) == [];
  }

  /** Items as content: one entry child per item, in order. */
  function EntriesContent(items: seq<TableOfContentsItem>): (c: seq<ContentChild>)
    ensures |c| == |items|
    ensures forall k :: 0 <= k < |c| ==> c[k] == Entry(items[k])
  {
    seq(|items|, k requires 0 <= k < |items| => Entry(items[k]))
  }

  /**
    A content made only of items has no paragraph and no field code of its own (no
    placeholder), and gives back its items.
   */
  lemma {:induction false} EntriesContentHasNoFieldCode(items: seq<TableOfContentsItem>)
    ensures FieldCode(EntriesContent(items)) == []
    ensures ParagraphCount(EntriesContent(items)) == 0
    ensures Entries(EntriesContent(items)) == items
    decreases |items|
  {
    if items != [] {
      EntriesContentHasNoFieldCode(items[1..]);
      assert EntriesContent(items)[1..] == EntriesContent(items[1..]);
    }
  }

  /**
    The table of contents as the writer keeps it. Every configuration method changes
    one field and leaves the others as they were.
   */
  class TableOfContents {
    var instr: InstrToC
    var items: seq<TableOfContentsItem>
    var auto: bool
    var dirty: bool
    var alias: Option<string>
    var pageRefPlaceholder: Option<string>

    constructor ()
      ensures instr == DefaultInstr && items == [] && !auto && !dirty
      ensures alias == None && pageRefPlaceholder == None
    {
      instr := DefaultInstr;
      items := [];
      auto := false;
      dirty := false;
      alias := None;
      pageRefPlaceholder := None;
    }

    method HeadingStylesRange(start: nat, end: nat)
      modifies this
      ensures instr == old(instr).WithHeadingStylesRange(start, end)
      ensures items == old(items) && auto == old(auto) && dirty == old(dirty)
      ensures alias == old(alias) && pageRefPlaceholder == old(pageRefPlaceholder)
    {
      instr := instr.WithHeadingStylesRange(start, end);
    }

    method AddStyleWithLevel(s: StyleWithLevel)
      modifies this
      ensures instr == old(instr).AddStyleWithLevel(s)
      ensures items == old(items) && auto == old(auto) && dirty == old(dirty)
      ensures alias == old(alias) && pageRefPlaceholder == old(pageRefPlaceholder)
    {
      instr := instr.AddStyleWithLevel(s);
    }

    method Hyperlink()
      modifies this
      ensures instr == old(instr).WithHyperlink()
      ensures items == old(items) && auto == old(auto) && dirty == old(dirty)
      ensures alias == old(alias) && pageRefPlaceholder == old(pageRefPlaceholder)
    {
      instr := instr.WithHyperlink();
    }

    method Alias(a: string)
      modifies this
      ensures alias == Some(a)
      ensures instr == old(instr) && items == old(items) && auto == old(auto)
      ensures dirty == old(dirty) && pageRefPlaceholder == old(pageRefPlaceholder)
    {
      alias := Some(a);
    }

    /** Appends at the end: the earlier items keep their places. */
    method AddItem(t: TableOfContentsItem)
      modifies this
      ensures items == old(items) + [t]
      ensures instr == old(instr) && auto == old(auto) && dirty == old(dirty)
      ensures alias == old(alias) && pageRefPlaceholder == old(pageRefPlaceholder)
    {
      items := items + [t];
    }

    method Auto()
      modifies this
      ensures auto
      ensures instr == old(instr) && items == old(items) && dirty == old(dirty)
      ensures alias == old(alias) && pageRefPlaceholder == old(pageRefPlaceholder)
    {
      auto := true;
    }

    method Dirty()
      modifies this
      ensures dirty
      ensures instr == old(instr) && items == old(items) && auto == old(auto)
      ensures alias == old(alias) && pageRefPlaceholder == old(pageRefPlaceholder)
    {
      dirty := true;
    }

    /**
      The rendered table. The alias appears exactly when one is set. Without items the
      content is the placeholder field code laid out in two one-run paragraphs and nothing
      else; with items
      it is the rendered items, one per stored item in order, and no placeholder paragraph
      at the content level; what each item renders is not modelled.
     */
    function Build(): (t: StructuredTag)
      reads this
      ensures t.alias == alias
      ensures items == [] ==> PlaceholderLayout(t.content, instr)
      ensures items == [] ==>
                FieldCode(t.content)
                  == [FieldChar(Begin, true), InstrText(instr), FieldChar(Separate, false), FieldChar(End, false)]
                && ParagraphCount(t.content) == 2 && Entries(t.content) == []
      ensures items != [] ==>
                FieldCode(t.content) == [] && ParagraphCount(t.content) == 0
                && Entries(t.content) == Propagate(items, instr, dirty, pageRefPlaceholder)
    {
      if items == [] then
        PlaceholderIsFieldCode(instr);
        StructuredTag(alias, PlaceholderParagraphs(instr))
      else
        var rendered := Propagate(items, instr, dirty, pageRefPlaceholder);
        EntriesContentHasNoFieldCode(rendered);
        StructuredTag(alias, EntriesContent(rendered))
    }
  }

  /**
    The two render paths exclude each other: the content holds placeholder paragraphs of its
    own or items, never both and never neither.
   */
  lemma BuildPathsExclusive(toc: TableOfContents)
    ensures (ParagraphCount(toc.Build().content) == 0) != (Entries(toc.Build().content) == [])
  {
  }

  /**
    Adding an item leaves the rendering of the earlier items as it was and renders the new
    one after them.
   */
  lemma AddItemRendersAfter(items: seq<TableOfContentsItem>, t: TableOfContentsItem, instr: InstrToC,
                            dirty: bool, placeholder: Option<string>)
    ensures Propagate(items + [t], instr, dirty, placeholder)
         == Propagate(items, instr, dirty, placeholder) + [Finalize(t, instr, dirty, placeholder)]
  {
    PropagateAppend(items, [t], instr, dirty, placeholder);
    assert [t][1..] == [];
  }

  /** `TableOfContents::new().heading_styles_range(1, 3).build()`. */
  method BuildHeadingRangeOneToThree() returns (t: StructuredTag)
    ensures t == StructuredTag(None, [
      Para(Paragraph([Run([FieldChar(Begin, true), InstrText(InstrToC(Some((1, 3)), [], false)),
                           FieldChar(Separate, false)])])),
      Para(Paragraph([Run([FieldChar(End, false)])]))])
  {
    var toc := new TableOfContents();
    toc.HeadingStylesRange(1, 3);
    t := toc.Build();
  }
}
