/**
 * The shape tree of a slide and its placeholder collection, as the slide
 * feature steps of features/steps/slide.py use them: an ordered view with a
 * length, zero-based indexed access and iteration, each child wrapped by the
 * shape factory on access, and the placeholder collection as the
 * order-preserving sub-view of the children that carry a placeholder marker.
 *
 * pptx/parts/slide.py, which implements both views and the shape factory,
 * is not part of this model. The classification below is this model's own
 * choice, made to fit the feature: a picture tag first, then a shape with a
 * placeholder marker, then a plain shape.
 */
module SlideShapes {
  import opened Wrappers
  import opened Namespaces
  import opened Oxml
  import OxmlStartup

  /** The p: elements a slide's shape tree holds as children. */
  datatype ShapeTag = Sp | CxnSp | GraphicFrame | GrpSp | Pic
  {
    /** The local part of the element's tag in the PresentationML namespace. */
    function LocalName(): string
    {
      match this
      case Sp => "sp"
      case CxnSp => "cxnSp"
      case GraphicFrame => "graphicFrame"
      case GrpSp => "grpSp"
      case Pic => "pic"
    }

    /** The element class registered for the tag at import. */
    function ElementClass(): ClassId
    {
      match this
      case Sp => CT_Shape
      case CxnSp => CT_Connector
      case GraphicFrame => CT_GraphicalObjectFrame
      case GrpSp => CT_GroupShape
      case Pic => CT_Picture
    }
  }

  /** Each kind of child is parsed as its own element class, and no two kinds share a tag or a class. */
  lemma ShapeTagClasses(tag: ShapeTag, other: ShapeTag)
    ensures Find(OxmlStartup.StartupRegistry(), (PresentationMl, tag.LocalName())) == Some(tag.ElementClass())
    ensures Find(OxmlStartup.StartupRegistry(), (PresentationMl, "ph")) == Some(CT_Placeholder)
    ensures tag != other ==> tag.LocalName() != other.LocalName() && tag.ElementClass() != other.ElementClass()
  {
    OxmlStartup.ShapeElementClasses();
    if tag != other {
      assert tag.LocalName()[0] != other.LocalName()[0] || |tag.LocalName()| != |other.LocalName()|;
    }
  }

  /** One child of the shape tree: its tag, and whether a p:ph marker sits inside it. */
  datatype ShapeElement = ShapeElement(tag: ShapeTag, hasPlaceholderMarker: bool)

  /** The wrapper classes the shape factory hands out; BaseShape is the base of the other three. */
  datatype WrapperClass = BaseShape | Shape | Picture | SlidePlaceholder

  /** isinstance: an object of class w is an instance of w and of the base class. */
  predicate IsInstance(w: WrapperClass, c: WrapperClass)
  {
    w == c || c == BaseShape
  }

  /** The placeholder test: a p:sp element carrying the placeholder marker. */
  predicate IsPlaceholder(e: ShapeElement)
  {
    e.tag == Sp && e.hasPlaceholderMarker
  }

  /** Stated by class: a placeholder is exactly an element parsed as CT_Shape that holds a marker. */
  lemma PlaceholderIsMarkedShape(e: ShapeElement)
    ensures IsPlaceholder(e) <==> e.tag.ElementClass() == CT_Shape && e.hasPlaceholderMarker
  {
  }

  /**
   * The shape factory: a picture tag wins, then a placeholder, and anything
   * else is a plain shape. Every wrapper is a base shape.
   */
  function Wrap(e: ShapeElement): (w: WrapperClass)
    ensures IsInstance(w, BaseShape) && w != BaseShape
    ensures w == Picture <==> e.tag == Pic
    ensures w == SlidePlaceholder <==> IsPlaceholder(e)
    ensures w == Shape <==> e.tag != Pic && !IsPlaceholder(e)
  {
    if e.tag == Pic then Picture
    else if IsPlaceholder(e) then SlidePlaceholder
    else Shape
  }

  /** Iteration: the children wrapped one after another, in document order. */
  function WrapAll(s: seq<ShapeElement>): (items: seq<WrapperClass>)
    ensures |items| == |s|
    ensures forall i :: 0 <= i < |s| ==> items[i] == Wrap(s[i])
  {
    if |s| == 0 then [] else [Wrap(s[0])] + WrapAll(s[1..])
  }

  datatype IndexError = IndexOutOfRange(index: int, length: nat)

  /**
   * The sequence protocol of the shape tree and of the placeholder
   * collection: the elements are kept, and each access wraps afresh.
   */
  datatype ShapeView = ShapeView(elements: seq<ShapeElement>)
  {
    /** len(view): as many as iteration yields. */
    function Length(): (n: nat)
      ensures n == |WrapAll(elements)|
    {
      |elements|
    }

    /** view[i]: the wrapped child at a zero-based index, or an index error outside [0, len). */
    function At(i: int): (r: Result<WrapperClass, IndexError>)
      ensures r.Ok? <==> 0 <= i < Length()
      ensures r.Err? ==> r.error == IndexOutOfRange(i, Length())
      ensures r.Ok? ==> r.value == Wrap(elements[i])
      ensures r.Ok? ==> IsInstance(r.value, BaseShape)
    {
      if 0 <= i < |elements| then Ok(Wrap(elements[i])) else Err(IndexOutOfRange(i, |elements|))
    }

    /** for item in view: the items iteration yields, in order. */
    function Items(): (items: seq<WrapperClass>)
      ensures |items| == Length()
      ensures forall i :: 0 <= i < |items| ==> At(i) == Ok(items[i])
    {
      WrapAll(elements)
    }
  }

  /** The placeholder children of a sequence of children, in their original order. */
  function PlaceholderElements(s: seq<ShapeElement>): (r: seq<ShapeElement>)
    ensures |r| <= |s|
    ensures forall j :: 0 <= j < |r| ==> IsPlaceholder(r[j])
  {
    if |s| == 0 then []
    else
      var init, last := s[..|s| - 1], s[|s| - 1];
      PlaceholderElements(init) + (if IsPlaceholder(last) then [last] else [])
  }

  /**
   * Where the placeholders sit: the positions of the placeholder children,
   * strictly increasing, and holding exactly the placeholder positions.
   */
  function PlaceholderPositions(s: seq<ShapeElement>): (idx: seq<nat>)
    ensures forall j :: 0 <= j < |idx| ==> idx[j] < |s| && IsPlaceholder(s[idx[j]])
    ensures forall j, k :: 0 <= j < k < |idx| ==> idx[j] < idx[k]
    ensures forall i :: 0 <= i < |s| && IsPlaceholder(s[i]) ==> i in idx
  {
    if |s| == 0 then []
    else
      var init := s[..|s| - 1];
      var rest := PlaceholderPositions(init);
      assert forall i :: 0 <= i < |init| ==> init[i] == s[i];
      rest + (if IsPlaceholder(s[|s| - 1]) then [|s| - 1] else [])
  }

  /** The shape tree of a slide whose shape-bearing children are given in document order. */
  function ShapeTree(children: seq<ShapeElement>): (tree: ShapeView)
    ensures tree.Length() == |children|
    ensures forall i :: 0 <= i < |children| ==> tree.At(i) == Ok(Wrap(children[i]))
  {
    ShapeView(children)
  }

  /** slide.placeholders: the sub-view of the shape tree holding the placeholder children. */
  function Placeholders(tree: ShapeView): (p: ShapeView)
    ensures p.Length() <= tree.Length()
  {
    ShapeView(PlaceholderElements(tree.elements))
  }

  /**
   * The placeholder collection keeps the placeholders' relative order: its
   * j-th element is the child at the j-th placeholder position.
   */
  lemma {:induction false} PlaceholdersAtPositions(s: seq<ShapeElement>)
    ensures |PlaceholderElements(s)| == |PlaceholderPositions(s)|
    ensures forall j :: 0 <= j < |PlaceholderElements(s)| ==>
      PlaceholderElements(s)[j] == s[PlaceholderPositions(s)[j]]
  {
    if |s| > 0 {
      var init := s[..|s| - 1];
      PlaceholdersAtPositions(init);
      assert forall i :: 0 <= i < |init| ==> init[i] == s[i];
    }
  }

  /** The positions of the placeholders, as a set. */
  function PlaceholderSet(s: seq<ShapeElement>): set<nat>
  {
    set i: nat | i < |s| && IsPlaceholder(s[i])
  }

  /** The collection's length is the number of placeholder children of the tree. */
  lemma {:induction false} PlaceholderCount(s: seq<ShapeElement>)
    ensures |PlaceholderElements(s)| == |PlaceholderSet(s)|
  {
    if |s| > 0 {
      var init, n := s[..|s| - 1], |s| - 1;
      PlaceholderCount(init);
      if IsPlaceholder(s[n]) {
        assert PlaceholderSet(s) == PlaceholderSet(init) + {n};
      } else {
        assert PlaceholderSet(s) == PlaceholderSet(init);
      }
    }
  }

  /**
   * Wrapping commutes with filtering: the collection's items are the shape
   * tree's items at the placeholder positions, and every one of them is a
   * slide placeholder.
   */
  lemma PlaceholderItems(tree: ShapeView)
    ensures Placeholders(tree).Length() == |PlaceholderPositions(tree.elements)|
    ensures forall j :: 0 <= j < Placeholders(tree).Length() ==>
      Placeholders(tree).Items()[j] == tree.Items()[PlaceholderPositions(tree.elements)[j]]
    ensures forall j :: 0 <= j < Placeholders(tree).Length() ==>
      Placeholders(tree).At(j) == Ok(SlidePlaceholder)
  {
    PlaceholdersAtPositions(tree.elements);
  }

  /** A tree's items are slide placeholders exactly where its children are placeholders. */
  lemma PlaceholderTyped(tree: ShapeView, i: int)
    requires 0 <= i < tree.Length()
    ensures tree.At(i) == Ok(SlidePlaceholder) <==> i in PlaceholderSet(tree.elements)
  {
  }

  /** The slide the feature uses: two placeholder shapes, then a picture. */
  const FixtureSlide: seq<ShapeElement> := [
    ShapeElement(Sp, true),
    ShapeElement(Sp, true),
    ShapeElement(Pic, false)
  ]

  /** On that slide the tree has three items: placeholder, placeholder, picture. */
  lemma FixtureShapeTree()
    ensures ShapeTree(FixtureSlide).Length() == 3
    ensures ShapeTree(FixtureSlide).Items() == [SlidePlaceholder, SlidePlaceholder, Picture]
  {
  }

  /** On that slide the placeholders are the first two children. */
  lemma FixturePlaceholderPositions()
    ensures PlaceholderPositions(FixtureSlide) == [0, 1]
  {
    var s := FixtureSlide;
    assert s[..2] == [s[0], s[1]];
    assert s[..2][..1] == [s[0]];
    assert PlaceholderPositions(s[..2][..1]) == [0];
    assert PlaceholderPositions(s[..2]) == [0, 1];
  }

  /** On that slide the placeholder collection has two items, both slide placeholders. */
  lemma FixturePlaceholders()
    ensures Placeholders(ShapeTree(FixtureSlide)).Length() == 2
    ensures Placeholders(ShapeTree(FixtureSlide)).Items() == [SlidePlaceholder, SlidePlaceholder]
  {
    var tree := ShapeTree(FixtureSlide);
    FixturePlaceholderPositions();
    PlaceholderItems(tree);
    var items := Placeholders(tree).Items();
    assert items[0] == SlidePlaceholder && items[1] == SlidePlaceholder;
  }
}
