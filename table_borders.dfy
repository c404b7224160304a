/**
  Table borders (`w:tblBorders`, ECMA-376 Part 1, 17.4): one border specification per
  position of a table, kept in six position-keyed optional slots and rendered in the
  fixed order the schema requires.
 */
module TableBorders {
  import opened Xml

  datatype TableBorderPosition = Top | Left | Bottom | Right | InsideH | InsideV

  /** The order in which the slots are emitted; every position appears exactly once. */
  const RenderOrder: seq<TableBorderPosition> := [Top, Left, Bottom, Right, InsideH, InsideV]

  lemma RenderOrderListsEveryPositionOnce(p: TableBorderPosition)
    ensures p in RenderOrder
    ensures forall i, j :: 0 <= i < j < |RenderOrder| ==> RenderOrder[i] != RenderOrder[j]
  {
  }

  /** The element a border at position `p` renders as. */
  function ElementName(p: TableBorderPosition): string {
    match p
    case Top => "w:top"
    case Left => "w:left"
    case Bottom => "w:bottom"
    case Right => "w:right"
    case InsideH => "w:insideH"
    case InsideV => "w:insideV"
  }

  function PositionOfName(name: string): Option<TableBorderPosition> {
    if name == "w:top" then Some(Top)
    else if name == "w:left" then Some(Left)
    else if name == "w:bottom" then Some(Bottom)
    else if name == "w:right" then Some(Right)
    else if name == "w:insideH" then Some(InsideH)
    else if name == "w:insideV" then Some(InsideV)
    else None
  }

  /** Element names are distinct: the name of an element gives back its position. */
  lemma ElementNameRoundTrip(p: TableBorderPosition)
    ensures PositionOfName(ElementName(p)) == Some(p)
  {
  }

  /** The border styles this model covers (a subset of ST_Border). */
  datatype BorderType = Nil | Single | Thick | Double | Dotted | Dashed

  /** The `w:val` keyword of a border style. */
  function Keyword(t: BorderType): string {
    match t
    case Nil => "nil"
    case Single => "single"
    case Thick => "thick"
    case Double => "double"
    case Dotted => "dotted"
    case Dashed => "dashed"
  }

  function BorderTypeOfKeyword(k: string): Option<BorderType> {
    if k == "nil" then Some(Nil)
    else if k == "single" then Some(Single)
    else if k == "thick" then Some(Thick)
    else if k == "double" then Some(Double)
    else if k == "dotted" then Some(Dotted)
    else if k == "dashed" then Some(Dashed)
    else None
  }

  /** Style keywords are distinct: a keyword gives back its style. */
  lemma KeywordRoundTrip(t: BorderType)
    ensures BorderTypeOfKeyword(Keyword(t)) == Some(t)
  {
  }

  /**
    One border. The position is fixed when the border is made: no operation below
    changes it, and the slot a border is stored in is chosen by it.
   */
  datatype TableBorder = TableBorder(
    borderType: BorderType,
    size: nat,
    color: string,
    position: TableBorderPosition,
    space: nat)
  {
    /** A single border, 2 eighths of a point wide, no spacing, black. */
    static function New(position: TableBorderPosition): (r: TableBorder)
      ensures r.position == position && r.borderType == Single
      ensures r.size == 2 && r.space == 0 && r.color == "000000"
    {
      TableBorder(Single, 2, "000000", position, 0)
    }

    function WithColor(c: string): (r: TableBorder)
      ensures r.color == c
      ensures r.(color := color) == this
    {
      this.(color := c)
    }

    function WithSize(s: nat): (r: TableBorder)
      ensures r.size == s
      ensures r.(size := size) == this
    {
      this.(size := s)
    }

    function WithBorderType(t: BorderType): (r: TableBorder)
      ensures r.borderType == t
      ensures r.(borderType := borderType) == this
    {
      this.(borderType := t)
    }

    /**
      The border's element: named by its position, attributes val, sz, space, color in
      that order, no children. Nothing of the border is lost: reading it back gives it again.
     */
    function Build(): (n: Node)
      ensures n.name == ElementName(position) && n.children == [] && |n.attrs| == 4
    {
      Node(ElementName(position),
           [Attr("w:val", Keyword(borderType)),
            Attr("w:sz", Decimal(size)),
            Attr("w:space", Decimal(space)),
            Attr("w:color", color)],
           [])
    }
  }

  /** Reads one border element back; the inverse of TableBorder.Build. */
  function ParseBorder(n: Node): Option<TableBorder> {
    if |n.attrs| == 4 && n.children == []
       && n.attrs[0].name == "w:val" && n.attrs[1].name == "w:sz"
       && n.attrs[2].name == "w:space" && n.attrs[3].name == "w:color"
    then
      match (PositionOfName(n.name), BorderTypeOfKeyword(n.attrs[0].value),
             ParseDecimal(n.attrs[1].value), ParseDecimal(n.attrs[2].value))
      case (Some(p), Some(t), Some(sz), Some(sp)) =>
        Some(TableBorder(t, sz, n.attrs[3].value, p, sp))
      case _ => None
    else None
  }

  /** Nothing of a border is lost in its element: reading it back gives the border again. */
  lemma BorderRoundTrip(b: TableBorder)
    ensures ParseBorder(b.Build()) == Some(b)
  {
    ElementNameRoundTrip(b.position);
    KeywordRoundTrip(b.borderType);
    DecimalRoundTrip(b.size);
    DecimalRoundTrip(b.space);
  }

  /** The border `clear` stores: a fresh default border at `p` with style nil. */
  function NilBorder(p: TableBorderPosition): (r: TableBorder)
    ensures r.position == p && r.borderType == Nil
    ensures r.size == 2 && r.space == 0 && r.color == "000000"
  {
    TableBorder.New(p).WithBorderType(Nil)
  }

  /**
    The value of the six slots: `None` means the position is absent and nothing is
    rendered for it.
   */
  datatype BorderSlots = BorderSlots(
    top: Option<TableBorder>,
    left: Option<TableBorder>,
    bottom: Option<TableBorder>,
    right: Option<TableBorder>,
    insideH: Option<TableBorder>,
    insideV: Option<TableBorder>)
  {
    function Get(p: TableBorderPosition): Option<TableBorder> {
      match p
      case Top => top
      case Left => left
      case Bottom => bottom
      case Right => right
      case InsideH => insideH
      case InsideV => insideV
    }

    /** The slots with slot `p` replaced by `v`. */
    function Put(p: TableBorderPosition, v: Option<TableBorder>): (r: BorderSlots)
      ensures r.Get(p) == v
      ensures forall q :: q != p ==> r.Get(q) == Get(q)
    {
      match p
      case Top => this.(top := v)
      case Left => this.(left := v)
      case Bottom => this.(bottom := v)
      case Right => this.(right := v)
      case InsideH => this.(insideH := v)
      case InsideV => this.(insideV := v)
    }

    /** Every present slot holds a border of its own position. */
    predicate WellKeyed() {
      forall p :: Get(p).Some? ==> Get(p).value.position == p
    }
  }

  /** Slot values are equal when they agree at every position. */
  lemma SlotsEqual(a: BorderSlots, b: BorderSlots)
    requires forall p :: a.Get(p) == b.Get(p)
    ensures a == b
  {
    assert a.Get(Top) == b.Get(Top) && a.Get(Left) == b.Get(Left);
    assert a.Get(Bottom) == b.Get(Bottom) && a.Get(Right) == b.Get(Right);
    assert a.Get(InsideH) == b.Get(InsideH) && a.Get(InsideV) == b.Get(InsideV);
  }

  const EmptySlots: BorderSlots := BorderSlots(None, None, None, None, None, None)

  function DefaultSlots(): (r: BorderSlots)
    ensures forall p :: r.Get(p) == Some(TableBorder.New(p))
  {
    BorderSlots(Some(TableBorder.New(Top)), Some(TableBorder.New(Left)),
                Some(TableBorder.New(Bottom)), Some(TableBorder.New(Right)),
                Some(TableBorder.New(InsideH)), Some(TableBorder.New(InsideV)))
  }

  function AllNilSlots(): (r: BorderSlots)
    ensures forall p :: r.Get(p) == Some(NilBorder(p))
  {
    BorderSlots(Some(NilBorder(Top)), Some(NilBorder(Left)), Some(NilBorder(Bottom)),
                Some(NilBorder(Right)), Some(NilBorder(InsideH)), Some(NilBorder(InsideV)))
  }

  /** `new()` fills every slot with the default border of that slot's own position. */
  lemma DefaultSlotsAreDefaults(p: TableBorderPosition)
    ensures DefaultSlots().Get(p) == Some(TableBorder(Single, 2, "000000", p, 0))
    ensures DefaultSlots().WellKeyed() && EmptySlots.WellKeyed()
    ensures EmptySlots.Get(p) == None
  {
  }

  /** The edits the collection offers, as values: `set(border)` and `clear(position)`. */
  datatype Edit = SetBorder(border: TableBorder) | ClearSlot(slot: TableBorderPosition)

  /** The slot an edit writes. */
  function Target(e: Edit): TableBorderPosition {
    match e
    case SetBorder(b) => b.position
    case ClearSlot(p) => p
  }

  /**
    The slots after one edit: the target slot is present afterwards (a clear stores a
    nil border, it does not empty the slot) and every other slot is as it was.
   */
  function Apply(s: BorderSlots, e: Edit): (r: BorderSlots)
    ensures r.Get(Target(e)).Some? && r.Get(Target(e)).value.position == Target(e)
    ensures e.SetBorder? ==> r.Get(e.border.position) == Some(e.border)
    ensures e.ClearSlot? ==> r.Get(e.slot) == Some(NilBorder(e.slot))
    ensures forall q :: q != Target(e) ==> r.Get(q) == s.Get(q)
    ensures s.WellKeyed() ==> r.WellKeyed()
  {
    match e
    case SetBorder(b) => s.Put(b.position, Some(b))
    case ClearSlot(p) => s.Put(p, Some(NilBorder(p)))
  }

  /** The slots after a chain of edits, applied left to right. */
  function ApplyAll(s: BorderSlots, es: seq<Edit>): BorderSlots
    decreases |es|
  {
    if es == [] then s else ApplyAll(Apply(s, es[0]), es[1..])
  }

  lemma ApplyTwo(s: BorderSlots, a: Edit, b: Edit)
    ensures ApplyAll(s, [a, b]) == Apply(Apply(s, a), b)
  {
    assert [a, b][1..] == [b];
    assert [b][1..] == [];
    assert ApplyAll(s, [a, b]) == ApplyAll(Apply(s, a), [b]);
    assert ApplyAll(Apply(s, a), [b]) == ApplyAll(Apply(Apply(s, a), b), []);
  }

  /** One clear per position of `ps`, in that order. */
  function ClearEdits(ps: seq<TableBorderPosition>): (es: seq<Edit>)
    ensures |es| == |ps|
    ensures forall k :: 0 <= k < |ps| ==> es[k] == ClearSlot(ps[k])
  {
    seq(|ps|, k requires 0 <= k < |ps| => ClearSlot(ps[k]))
  }

  /** `clear(p)` does not depend on what the slot held: it always yields the same nil border. */
  lemma ClearForgetsPrevious(s: BorderSlots, p: TableBorderPosition)
    ensures Apply(s, ClearSlot(p)).Get(p) == Some(TableBorder(Nil, 2, "000000", p, 0))
  {
  }

  /** `set(b).set(b) == set(b)`. */
  lemma SetIdempotent(s: BorderSlots, b: TableBorder)
    ensures ApplyAll(s, [SetBorder(b), SetBorder(b)]) == ApplyAll(s, [SetBorder(b)])
  {
    var once := Apply(s, SetBorder(b));
    assert [SetBorder(b), SetBorder(b)][1..] == [SetBorder(b)];
    assert [SetBorder(b)][1..] == [];
    assert ApplyAll(s, [SetBorder(b)]) == once;
    assert ApplyAll(once, [SetBorder(b)]) == Apply(once, SetBorder(b));
    SlotsEqual(Apply(once, SetBorder(b)), once);
  }

  /** Non-interference: a slot that no edit of a chain targets ends as it began. */
  lemma {:induction false} UntouchedSlotUnchanged(s: BorderSlots, es: seq<Edit>, p: TableBorderPosition)
    requires forall k :: 0 <= k < |es| ==> Target(es[k]) != p
    ensures ApplyAll(s, es).Get(p) == s.Get(p)
    decreases |es|
  {
    if es != [] {
      UntouchedSlotUnchanged(Apply(s, es[0]), es[1..], p);
    }
  }

  /** Every chain of edits keeps each present border in the slot of its own position. */
  lemma {:induction false} EditsKeepWellKeyed(s: BorderSlots, es: seq<Edit>)
    requires s.WellKeyed()
    ensures ApplyAll(s, es).WellKeyed()
    decreases |es|
  {
    if es != [] {
      EditsKeepWellKeyed(Apply(s, es[0]), es[1..]);
    }
  }

  lemma {:induction false} ClearEditsOverwrite(s: BorderSlots, ps: seq<TableBorderPosition>, q: TableBorderPosition)
    ensures ApplyAll(s, ClearEdits(ps)).Get(q) == if q in ps then Some(NilBorder(q)) else s.Get(q)
    decreases |ps|
  {
    if ps != [] {
      assert ClearEdits(ps)[1..] == ClearEdits(ps[1..]);
      ClearEditsOverwrite(Apply(s, ClearSlot(ps[0])), ps[1..], q);
    }
  }

  /** `clear_all()` is `clear` of each of the six positions, whatever the slots held before. */
  lemma ClearAllIsEveryClear(s: BorderSlots)
    ensures ApplyAll(s, ClearEdits(RenderOrder)) == AllNilSlots()
    ensures forall p :: AllNilSlots().Get(p).Some? && AllNilSlots().Get(p).value.borderType == Nil
  {
    forall p ensures ApplyAll(s, ClearEdits(RenderOrder)).Get(p) == AllNilSlots().Get(p) {
      RenderOrderListsEveryPositionOnce(p);
      ClearEditsOverwrite(s, RenderOrder, p);
    }
    SlotsEqual(ApplyAll(s, ClearEdits(RenderOrder)), AllNilSlots());
  }

  /** The element of each border, in order. */
  function BuildAll(bs: seq<TableBorder>): (ns: seq<Node>)
    ensures |ns| == |bs|
    ensures forall k :: 0 <= k < |bs| ==> ns[k] == bs[k].Build()
  {
    seq(|bs|, k requires 0 <= k < |bs| => bs[k].Build())
  }

  lemma BuildAllAppend(a: seq<TableBorder>, b: seq<TableBorder>)
    ensures BuildAll(a + b) == BuildAll(a) + BuildAll(b)
  {
  }

  /** The border held by a slot, as a sequence of zero or one borders. */
  function Held(o: Option<TableBorder>): seq<TableBorder> {
    match o
    case None => []
    case Some(b) => [b]
  }

  /** What `add_optional_child` contributes: nothing for an absent slot, the border otherwise. */
  function OptionalChild(o: Option<TableBorder>): (ns: seq<Node>)
    ensures ns == BuildAll(Held(o))
  {
    match o
    case None => []
    case Some(b) => [b.Build()]
  }

  /** The borders of the present slots among `order`, in that order. */
  function PresentBorders(s: BorderSlots, order: seq<TableBorderPosition>): (r: seq<TableBorder>)
    ensures |r| <= |order|
    decreases |order|
  {
    if order == [] then [] else Held(s.Get(order[0])) + PresentBorders(s, order[1..])
  }

  /** The elements of the present slots among `order`, in that order. */
  function Present(s: BorderSlots, order: seq<TableBorderPosition>): seq<Node> {
    BuildAll(PresentBorders(s, order))
  }

  lemma PresentStep(s: BorderSlots, p: TableBorderPosition, rest: seq<TableBorderPosition>)
    ensures PresentBorders(s, [p] + rest) == Held(s.Get(p)) + PresentBorders(s, rest)
  {
    assert ([p] + rest)[1..] == rest;
  }

  /** Unrolled over the six positions, the present borders are the six slots in schema order. */
  lemma PresentInRenderOrder(s: BorderSlots)
    ensures PresentBorders(s, RenderOrder)
         == Held(s.top) + (Held(s.left) + (Held(s.bottom)
            + (Held(s.right) + (Held(s.insideH) + Held(s.insideV)))))
  {
    var o := RenderOrder;
    PresentStep(s, o[5], o[6..]);
    assert [o[5]] + o[6..] == o[5..];
    PresentStep(s, o[4], o[5..]);
    assert [o[4]] + o[5..] == o[4..];
    PresentStep(s, o[3], o[4..]);
    assert [o[3]] + o[4..] == o[3..];
    PresentStep(s, o[2], o[3..]);
    assert [o[2]] + o[3..] == o[2..];
    PresentStep(s, o[1], o[2..]);
    assert [o[1]] + o[2..] == o[1..];
    PresentStep(s, o[0], o[1..]);
    assert [o[0]] + o[1..] == o;
  }

  /** The reference rendering of the slots: present ones in schema order. */
  function RenderSlots(s: BorderSlots): (n: Node)
    ensures n.name == "w:tblBorders" && n.attrs == [] && |n.children| <= 6
  {
    Node("w:tblBorders", [], Present(s, RenderOrder))
  }

  /**
    Reads the children of a borders element back, expecting them in `order` with none
    repeated or out of place.
   */
  function ParseSlots(children: seq<Node>, order: seq<TableBorderPosition>): Option<BorderSlots>
    decreases |order|
  {
    if order == [] then
      if children == [] then Some(EmptySlots) else None
    else if children != [] && ParseBorder(children[0]).Some?
            && ParseBorder(children[0]).value.position == order[0] then
      match ParseSlots(children[1..], order[1..])
      case None => None
      case Some(s) => Some(s.Put(order[0], ParseBorder(children[0])))
    else ParseSlots(children, order[1..])
  }

  function ParseBorders(n: Node): Option<BorderSlots> {
    if n.name == "w:tblBorders" && n.attrs == [] then ParseSlots(n.children, RenderOrder)
    else None
  }

  /** The slots of `s` at the positions of `order`; the others absent. */
  function Restrict(s: BorderSlots, order: seq<TableBorderPosition>): (r: BorderSlots)
    ensures forall p :: r.Get(p) == if p in order then s.Get(p) else None
  {
    BorderSlots(if Top in order then s.top else None,
                if Left in order then s.left else None,
                if Bottom in order then s.bottom else None,
                if Right in order then s.right else None,
                if InsideH in order then s.insideH else None,
                if InsideV in order then s.insideV else None)
  }

  /** Every emitted border is the one held by the slot of its own position, a position of the order. */
  lemma {:induction false} PresentComesFrom(s: BorderSlots, order: seq<TableBorderPosition>)
    requires s.WellKeyed()
    ensures forall k :: 0 <= k < |PresentBorders(s, order)| ==> PresentBorders(s, order)[k].position in order
    ensures forall k :: 0 <= k < |PresentBorders(s, order)| ==>
              s.Get(PresentBorders(s, order)[k].position) == Some(PresentBorders(s, order)[k])
    decreases |order|
  {
    if order != [] {
      PresentComesFrom(s, order[1..]);
    }
  }

  /** A child that parses to the border of the next expected position is taken for it. */
  lemma ParseSlotsTake(n: Node, rest: seq<Node>, order: seq<TableBorderPosition>, b: TableBorder)
    requires order != [] && ParseBorder(n) == Some(b) && b.position == order[0]
    ensures ParseSlots([n] + rest, order)
         == match ParseSlots(rest, order[1..])
            case None => None
            case Some(s) => Some(s.Put(order[0], Some(b)))
  {
    assert ([n] + rest)[0] == n && ([n] + rest)[1..] == rest;
  }

  /** A position whose element is not next is absent, and parsing moves on to the next position. */
  lemma ParseSlotsSkip(children: seq<Node>, order: seq<TableBorderPosition>)
    requires order != []
    requires children != [] ==> ParseBorder(children[0]).Some? && ParseBorder(children[0]).value.position != order[0]
    ensures ParseSlots(children, order) == ParseSlots(children, order[1..])
  {
  }

  lemma PresentHead(s: BorderSlots, order: seq<TableBorderPosition>)
    requires order != []
    ensures Present(s, order) == BuildAll(Held(s.Get(order[0]))) + Present(s, order[1..])
  {
    BuildAllAppend(Held(s.Get(order[0])), PresentBorders(s, order[1..]));
  }

  lemma DistinctTail(order: seq<TableBorderPosition>)
    requires order != []
    requires forall i, j :: 0 <= i < j < |order| ==> order[i] != order[j]
    ensures order[0] !in order[1..]
    ensures forall i, j :: 0 <= i < j < |order[1..]| ==> order[1..][i] != order[1..][j]
  {
    forall j | 0 <= j < |order[1..]| ensures order[1..][j] != order[0] {
      assert order[1..][j] == order[j + 1];
    }
  }

  lemma RestrictHead(s: BorderSlots, order: seq<TableBorderPosition>)
    requires order != []
    ensures Restrict(s, order) == Restrict(s, order[1..]).Put(order[0], s.Get(order[0]))
  {
    assert order == [order[0]] + order[1..];
    forall p ensures Restrict(s, order).Get(p) == Restrict(s, order[1..]).Put(order[0], s.Get(order[0])).Get(p) {
      assert p in order <==> p == order[0] || p in order[1..];
    }
    SlotsEqual(Restrict(s, order), Restrict(s, order[1..]).Put(order[0], s.Get(order[0])));
  }

  lemma PutAbsent(s: BorderSlots, p: TableBorderPosition)
    requires s.Get(p) == None
    ensures s.Put(p, None) == s
  {
    SlotsEqual(s.Put(p, None), s);
  }

  lemma {:induction false} ParsePresent(s: BorderSlots, order: seq<TableBorderPosition>)
    requires s.WellKeyed()
    requires forall i, j :: 0 <= i < j < |order| ==> order[i] != order[j]
    ensures ParseSlots(Present(s, order), order) == Some(Restrict(s, order))
    decreases |order|
  {
    if order == [] {
      SlotsEqual(Restrict(s, order), EmptySlots);
    } else {
      var o, rest := order[0], order[1..];
      DistinctTail(order);
      ParsePresent(s, rest);
      var tail := Present(s, rest);
      PresentHead(s, order);
      RestrictHead(s, order);
      if s.Get(o).Some? {
        var b := s.Get(o).value;
        assert BuildAll(Held(s.Get(o))) == [b.Build()];
        var children := [b.Build()] + tail;
        assert Present(s, order) == children;
        BorderRoundTrip(b);
        ParseSlotsTake(b.Build(), tail, order, b);
        assert ParseSlots(children, order) == Some(Restrict(s, rest).Put(o, Some(b)));
      } else {
        assert BuildAll(Held(s.Get(o))) == [];
        assert Present(s, order) == tail;
        if tail != [] {
          PresentComesFrom(s, rest);
          BorderRoundTrip(PresentBorders(s, rest)[0]);
        }
        ParseSlotsSkip(tail, order);
        PutAbsent(Restrict(s, rest), o);
      }
    }
  }

  /** Rendering loses nothing: the element names and their order identify every slot. */
  lemma RenderRoundTrip(s: BorderSlots)
    ensures s.WellKeyed() ==> ParseBorders(RenderSlots(s)) == Some(s)
  {
    if s.WellKeyed() {
      ParsePresent(s, RenderOrder);
      forall p ensures Restrict(s, RenderOrder).Get(p) == s.Get(p) {
        RenderOrderListsEveryPositionOnce(p);
      }
      SlotsEqual(Restrict(s, RenderOrder), s);
    }
  }

  /** An empty collection renders as a wrapper with no children. */
  lemma EmptyRendersNoChildren()
    ensures RenderSlots(EmptySlots).children == []
  {
  }

  /** The element of one border, written out attribute by attribute. */
  function BorderElement(name: string, val: string, color: string): Node {
    Node(name, [Attr("w:val", val), Attr("w:sz", "2"), Attr("w:space", "0"), Attr("w:color", color)], [])
  }

  /**
    The collection as the writer keeps it: six optional slots, each either absent
    (nothing is rendered for it) or holding one border.
   */
  class TableBorders {
    var top: Option<TableBorder>
    var left: Option<TableBorder>
    var bottom: Option<TableBorder>
    var right: Option<TableBorder>
    var insideH: Option<TableBorder>
    var insideV: Option<TableBorder>

    /** The abstract value: the six slots as they stand. */
    function Slots(): BorderSlots
      reads this
    {
      BorderSlots(top, left, bottom, right, insideH, insideV)
    }

    ghost predicate Valid()
      reads this
    {
      Slots().WellKeyed()
    }

    /** `TableBorders::new()`: every slot present with the default border of its position. */
    constructor ()
      ensures Slots() == DefaultSlots() && Valid()
    {
      top := Some(TableBorder.New(Top));
      left := Some(TableBorder.New(Left));
      bottom := Some(TableBorder.New(Bottom));
      right := Some(TableBorder.New(Right));
      insideH := Some(TableBorder.New(InsideH));
      insideV := Some(TableBorder.New(InsideV));
    }

    /** `TableBorders::with_empty()`: every slot absent. */
    constructor WithEmpty()
      ensures Slots() == EmptySlots && Valid()
    {
      top, left, bottom, right, insideH, insideV := None, None, None, None, None, None;
    }

    method Set(border: TableBorder)
      modifies this
      ensures Slots() == Apply(old(Slots()), SetBorder(border))
      ensures old(Valid()) ==> Valid()
    {
      match border.position
      case Top => top := Some(border);
      case Left => left := Some(border);
      case Bottom => bottom := Some(border);
      case Right => right := Some(border);
      case InsideH => insideH := Some(border);
      case InsideV => insideV := Some(border);
    }

    method Clear(position: TableBorderPosition)
      modifies this
      ensures Slots() == Apply(old(Slots()), ClearSlot(position))
      ensures old(Valid()) ==> Valid()
    {
      var nil := TableBorder.New(position).WithBorderType(Nil);
      match position
      case Top => top := Some(nil);
      case Left => left := Some(nil);
      case Bottom => bottom := Some(nil);
      case Right => right := Some(nil);
      case InsideH => insideH := Some(nil);
      case InsideV => insideV := Some(nil);
    }

    method ClearAll()
      modifies this
      ensures Slots() == ApplyAll(old(Slots()), ClearEdits(RenderOrder))
      ensures Valid()
    {
      top := Some(TableBorder.New(Top).WithBorderType(Nil));
      left := Some(TableBorder.New(Left).WithBorderType(Nil));
      bottom := Some(TableBorder.New(Bottom).WithBorderType(Nil));
      right := Some(TableBorder.New(Right).WithBorderType(Nil));
      insideH := Some(TableBorder.New(InsideH).WithBorderType(Nil));
      insideV := Some(TableBorder.New(InsideV).WithBorderType(Nil));
      ClearAllIsEveryClear(old(Slots()));
    }

    /** The borders element: the present slots in the order top, left, bottom, right, insideH, insideV. */
    function Build(): (n: Node)
      reads this
      ensures n == RenderSlots(Slots())
      ensures Valid() ==> ParseBorders(n) == Some(Slots())
    {
      RenderRoundTrip(Slots());
      PresentInRenderOrder(Slots());
      var h5 := Held(insideH) + Held(insideV);
      var h4 := Held(right) + h5;
      var h3 := Held(bottom) + h4;
      var h2 := Held(left) + h3;
      BuildAllAppend(Held(insideH), Held(insideV));
      BuildAllAppend(Held(right), h5);
      BuildAllAppend(Held(bottom), h4);
      BuildAllAppend(Held(left), h3);
      BuildAllAppend(Held(top), h2);
      Node("w:tblBorders", [],
           OptionalChild(top) + (OptionalChild(left) + (OptionalChild(bottom)
           + (OptionalChild(right) + (OptionalChild(insideH) + OptionalChild(insideV))))))
    }
  }

  /** A default border renders `val="single" sz="2" space="0" color="000000"`. */
  lemma DefaultBorderElement(p: TableBorderPosition)
    ensures TableBorder.New(p).Build() == BorderElement(ElementName(p), "single", "000000")
    ensures NilBorder(p).Build() == BorderElement(ElementName(p), "nil", "000000")
  {
  }

  /** With every slot present, all six borders are emitted, in schema order. */
  lemma PresentAllSix(s: BorderSlots)
    requires s.top.Some? && s.left.Some? && s.bottom.Some?
    requires s.right.Some? && s.insideH.Some? && s.insideV.Some?
    ensures PresentBorders(s, RenderOrder)
         == [s.top.value, s.left.value, s.bottom.value, s.right.value, s.insideH.value, s.insideV.value]
  {
    PresentInRenderOrder(s);
  }

  lemma BuildSix(bs: seq<TableBorder>, ns: seq<Node>)
    requires |bs| == 6 && |ns| == 6
    requires bs[0].Build() == ns[0] && bs[1].Build() == ns[1] && bs[2].Build() == ns[2]
    requires bs[3].Build() == ns[3] && bs[4].Build() == ns[4] && bs[5].Build() == ns[5]
    ensures BuildAll(bs) == ns
  {
  }

  /** The six default borders render as the six `single` elements, in schema order. */
  lemma DefaultElements()
    ensures BuildAll([TableBorder.New(Top), TableBorder.New(Left), TableBorder.New(Bottom),
                      TableBorder.New(Right), TableBorder.New(InsideH), TableBorder.New(InsideV)])
         == [BorderElement("w:top", "single", "000000"),
             BorderElement("w:left", "single", "000000"),
             BorderElement("w:bottom", "single", "000000"),
             BorderElement("w:right", "single", "000000"),
             BorderElement("w:insideH", "single", "000000"),
             BorderElement("w:insideV", "single", "000000")]
  {
    DefaultBorderElement(Top);
    DefaultBorderElement(Left);
    DefaultBorderElement(Bottom);
    DefaultBorderElement(Right);
    DefaultBorderElement(InsideH);
    DefaultBorderElement(InsideV);
    BuildSix([TableBorder.New(Top), TableBorder.New(Left), TableBorder.New(Bottom),
              TableBorder.New(Right), TableBorder.New(InsideH), TableBorder.New(InsideV)],
             [BorderElement("w:top", "single", "000000"),
              BorderElement("w:left", "single", "000000"),
              BorderElement("w:bottom", "single", "000000"),
              BorderElement("w:right", "single", "000000"),
              BorderElement("w:insideH", "single", "000000"),
              BorderElement("w:insideV", "single", "000000")]);
  }

  lemma RenderAllDefaults(s: BorderSlots)
    requires s.top == Some(TableBorder.New(Top)) && s.left == Some(TableBorder.New(Left))
    requires s.bottom == Some(TableBorder.New(Bottom)) && s.right == Some(TableBorder.New(Right))
    requires s.insideH == Some(TableBorder.New(InsideH)) && s.insideV == Some(TableBorder.New(InsideV))
    ensures RenderSlots(s) == Node("w:tblBorders", [], [
      BorderElement("w:top", "single", "000000"),
      BorderElement("w:left", "single", "000000"),
      BorderElement("w:bottom", "single", "000000"),
      BorderElement("w:right", "single", "000000"),
      BorderElement("w:insideH", "single", "000000"),
      BorderElement("w:insideV", "single", "000000")])
  {
    PresentAllSix(s);
    DefaultElements();
  }

  /** `TableBorders::new().build()`: all six default borders, in schema order. */
  lemma DefaultRender()
    ensures RenderSlots(DefaultSlots()) == Node("w:tblBorders", [], [
      BorderElement("w:top", "single", "000000"),
      BorderElement("w:left", "single", "000000"),
      BorderElement("w:bottom", "single", "000000"),
      BorderElement("w:right", "single", "000000"),
      BorderElement("w:insideH", "single", "000000"),
      BorderElement("w:insideV", "single", "000000")])
  {
    RenderAllDefaults(DefaultSlots());
  }

  /** The default borders with top nil and left coloured AAAAAA render as the expected elements. */
  lemma LeftColouredTopNilElements()
    ensures BuildAll([NilBorder(Top), TableBorder.New(Left).WithColor("AAAAAA"), TableBorder.New(Bottom),
                      TableBorder.New(Right), TableBorder.New(InsideH), TableBorder.New(InsideV)])
         == [BorderElement("w:top", "nil", "000000"),
             BorderElement("w:left", "single", "AAAAAA"),
             BorderElement("w:bottom", "single", "000000"),
             BorderElement("w:right", "single", "000000"),
             BorderElement("w:insideH", "single", "000000"),
             BorderElement("w:insideV", "single", "000000")]
  {
    DefaultBorderElement(Top);
    DefaultBorderElement(Bottom);
    DefaultBorderElement(Right);
    DefaultBorderElement(InsideH);
    DefaultBorderElement(InsideV);
    BuildSix([NilBorder(Top), TableBorder.New(Left).WithColor("AAAAAA"), TableBorder.New(Bottom),
              TableBorder.New(Right), TableBorder.New(InsideH), TableBorder.New(InsideV)],
             [BorderElement("w:top", "nil", "000000"),
              BorderElement("w:left", "single", "AAAAAA"),
              BorderElement("w:bottom", "single", "000000"),
              BorderElement("w:right", "single", "000000"),
              BorderElement("w:insideH", "single", "000000"),
              BorderElement("w:insideV", "single", "000000")]);
  }

  lemma RenderLeftColouredTopNil(s: BorderSlots)
    requires s.top == Some(NilBorder(Top)) && s.left == Some(TableBorder.New(Left).WithColor("AAAAAA"))
    requires s.bottom == Some(TableBorder.New(Bottom)) && s.right == Some(TableBorder.New(Right))
    requires s.insideH == Some(TableBorder.New(InsideH)) && s.insideV == Some(TableBorder.New(InsideV))
    ensures RenderSlots(s) == Node("w:tblBorders", [], [
      BorderElement("w:top", "nil", "000000"),
      BorderElement("w:left", "single", "AAAAAA"),
      BorderElement("w:bottom", "single", "000000"),
      BorderElement("w:right", "single", "000000"),
      BorderElement("w:insideH", "single", "000000"),
      BorderElement("w:insideV", "single", "000000")])
  {
    PresentAllSix(s);
    LeftColouredTopNilElements();
  }

  /**
    Setting a left border coloured AAAAAA and then clearing the top one changes only those
    two elements: top becomes nil with default attributes, left keeps single and takes the colour.
   */
  lemma SetLeftClearTopRender()
    ensures RenderSlots(ApplyAll(DefaultSlots(), [SetBorder(TableBorder.New(Left).WithColor("AAAAAA")), ClearSlot(Top)]))
         == Node("w:tblBorders", [], [
              BorderElement("w:top", "nil", "000000"),
              BorderElement("w:left", "single", "AAAAAA"),
              BorderElement("w:bottom", "single", "000000"),
              BorderElement("w:right", "single", "000000"),
              BorderElement("w:insideH", "single", "000000"),
              BorderElement("w:insideV", "single", "000000")])
  {
    var left := TableBorder.New(Left).WithColor("AAAAAA");
    ApplyTwo(DefaultSlots(), SetBorder(left), ClearSlot(Top));
    var s := Apply(Apply(DefaultSlots(), SetBorder(left)), ClearSlot(Top));
    assert s.Get(Top) == s.top && s.Get(Left) == s.left && s.Get(Bottom) == s.bottom;
    assert s.Get(Right) == s.right && s.Get(InsideH) == s.insideH && s.Get(InsideV) == s.insideV;
    RenderLeftColouredTopNil(s);
  }

  /** A new collection renders all six default borders, in schema order. */
  method BuildDefault() returns (n: Node)
    ensures n == Node("w:tblBorders", [], [
      BorderElement("w:top", "single", "000000"),
      BorderElement("w:left", "single", "000000"),
      BorderElement("w:bottom", "single", "000000"),
      BorderElement("w:right", "single", "000000"),
      BorderElement("w:insideH", "single", "000000"),
      BorderElement("w:insideV", "single", "000000")])
  {
    var borders := new TableBorders();
    n := borders.Build();
    DefaultRender();
  }

  /** Setting a coloured left border and clearing the top one touches only those two elements. */
  method BuildSetLeftClearTop() returns (n: Node)
    ensures n == Node("w:tblBorders", [], [
      BorderElement("w:top", "nil", "000000"),
      BorderElement("w:left", "single", "AAAAAA"),
      BorderElement("w:bottom", "single", "000000"),
      BorderElement("w:right", "single", "000000"),
      BorderElement("w:insideH", "single", "000000"),
      BorderElement("w:insideV", "single", "000000")])
  {
    var borders := new TableBorders();
    var left := TableBorder.New(Left).WithColor("AAAAAA");
    borders.Set(left);
    borders.Clear(Top);
    ApplyTwo(DefaultSlots(), SetBorder(left), ClearSlot(Top));
    n := borders.Build();
    SetLeftClearTopRender();
  }
}
