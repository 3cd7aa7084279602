/**
 * The element-class registry of pptx/oxml/__init__.py: a process-wide
 * lookup table from (namespace URI, local name) to the custom element class
 * the XML parser should instantiate for that tag.
 */
module Oxml {
  import opened Wrappers
  import opened Namespaces

  /** The custom element classes registered at startup, as opaque identities. */
  datatype ClassId =
    // chart.axis
    | CT_CatAx
    | CT_Scaling
    | CT_TickLblPos
    | CT_TickMark
    | CT_ValAx
    // chart.chart
    | CT_Chart
    | CT_ChartSpace
    | CT_PlotArea
    | CT_Style
    // chart.plot
    | CT_Area3DChart
    | CT_AreaChart
    | CT_BarChart
    | CT_DLbls
    | CT_GapAmount
    | CT_Grouping
    | CT_LineChart
    | CT_PieChart
    // chart.series
    | CT_SeriesComposite
    // chart.shared
    | CT_Boolean
    | CT_Double
    | CT_NumFmt
    // dml.color
    | CT_HslColor
    | CT_Percentage
    | CT_PresetColor
    | CT_SRgbColor
    | CT_ScRgbColor
    | CT_SchemeColor
    | CT_SystemColor
    // dml.fill
    | CT_BlipFillProperties
    | CT_GradientFillProperties
    | CT_GroupFillProperties
    | CT_NoFillProperties
    | CT_PatternFillProperties
    | CT_SolidColorFillProperties
    // parts.coreprops
    | CT_CoreProperties
    // parts.presentation
    | CT_Presentation
    | CT_SlideId
    | CT_SlideIdList
    | CT_SlideMasterIdList
    | CT_SlideMasterIdListEntry
    | CT_SlideSize
    // parts.slide
    | CT_CommonSlideData
    | CT_Slide
    // parts.slidelayout
    | CT_SlideLayout
    // parts.slidemaster
    | CT_SlideLayoutIdList
    | CT_SlideLayoutIdListEntry
    | CT_SlideMaster
    // shapes.autoshape
    | CT_GeomGuide
    | CT_GeomGuideList
    | CT_NonVisualDrawingShapeProps
    | CT_PresetGeometry2D
    | CT_Shape
    | CT_ShapeNonVisual
    // shapes.connector
    | CT_Connector
    | CT_ConnectorNonVisual
    // shapes.graphfrm
    | CT_GraphicalObject
    | CT_GraphicalObjectData
    | CT_GraphicalObjectFrame
    | CT_GraphicalObjectFrameNonVisual
    // shapes.groupshape
    | CT_GroupShape
    | CT_GroupShapeNonVisual
    | CT_GroupShapeProperties
    // shapes.picture
    | CT_Picture
    | CT_PictureNonVisual
    // shapes.shared
    | CT_ApplicationNonVisualDrawingProps
    | CT_LineProperties
    | CT_NonVisualDrawingProps
    | CT_Placeholder
    | CT_Point2D
    | CT_PositiveSize2D
    | CT_ShapeProperties
    | CT_Transform2D
    // shapes.table
    | CT_Table
    | CT_TableCell
    | CT_TableCellProperties
    | CT_TableCol
    | CT_TableGrid
    | CT_TableProperties
    | CT_TableRow
    // text
    | CT_Hyperlink
    | CT_RegularTextRun
    | CT_TextBody
    | CT_TextBodyProperties
    | CT_TextCharacterProperties
    | CT_TextFont
    | CT_TextParagraph
    | CT_TextParagraphProperties

  /** The lookup key: namespace URI and local part, never the prefix. */
  type Key = (Uri, string)

  /**
   * One register_element_cls call, as the state it leaves behind: the tag
   * is resolved first, and only a resolved tag writes its key. A tag that
   * does not resolve raises before the table is touched.
   */
  function Registered(classes: map<Key, ClassId>, tag: string, cls: ClassId): (r: Result<map<Key, ClassId>, TagError>)
    ensures r.Err? <==> Resolve(tag).Err?
    ensures r.Err? ==> r.error == Resolve(tag).error
    ensures r.Ok? ==> Resolve(tag).value in r.value && r.value[Resolve(tag).value] == cls
    ensures r.Ok? ==> r.value.Keys == classes.Keys + {Resolve(tag).value}
    ensures r.Ok? ==> forall k :: k in classes && k != Resolve(tag).value ==> r.value[k] == classes[k]
  {
    match Resolve(tag)
    case Err(e) => Err(e)
    case Ok(key) => Ok(classes[key := cls])
  }

  /** The class a table holds under a key, or None for an unregistered key. */
  function Find(classes: map<Key, ClassId>, key: Key): Option<ClassId>
  {
    if key in classes then Some(classes[key]) else None
  }

  /** The class the parser finds for a tag string, or None when the tag is unregistered or does not resolve. */
  function ClassForTag(classes: map<Key, ClassId>, tag: string): Option<ClassId>
  {
    match Resolve(tag)
    case Err(_) => None
    case Ok(k) => Find(classes, k)
  }

  /** Registering the same tag twice keeps only the second class: the last write wins. */
  lemma RegisterLastWriteWins(classes: map<Key, ClassId>, tag: string, first: ClassId, second: ClassId)
    requires Resolve(tag).Ok?
    ensures Registered(Registered(classes, tag, first).value, tag, second) == Registered(classes, tag, second)
  {
    var k := Resolve(tag).value;
    assert classes[k := first][k := second] == classes[k := second];
  }

  /** Registrations of tags with different keys commute. */
  lemma RegisterCommutes(classes: map<Key, ClassId>, tag1: string, cls1: ClassId, tag2: string, cls2: ClassId)
    requires Resolve(tag1).Ok? && Resolve(tag2).Ok? && Resolve(tag1).value != Resolve(tag2).value
    ensures Registered(Registered(classes, tag1, cls1).value, tag2, cls2)
         == Registered(Registered(classes, tag2, cls2).value, tag1, cls1)
  {
    var k1, k2 := Resolve(tag1).value, Resolve(tag2).value;
    assert classes[k1 := cls1][k2 := cls2] == classes[k2 := cls2][k1 := cls1];
  }

  /**
   * The key holds the namespace, not the prefix: the same local part under two
   * different prefixes names two entries, and registering one leaves the other.
   */
  lemma PrefixesIndependent(classes: map<Key, ClassId>, p: string, q: string, localPart: string, cls: ClassId)
    requires ':' !in p && ':' !in q && KnownPrefix(p) && KnownPrefix(q) && p != q
    ensures Resolve(p + ":" + localPart).Ok? && Resolve(q + ":" + localPart).Ok?
    ensures Resolve(p + ":" + localPart).value != Resolve(q + ":" + localPart).value
    ensures ClassForTag(Registered(classes, p + ":" + localPart, cls).value, q + ":" + localPart)
         == ClassForTag(classes, q + ":" + localPart)
  {
    ResolveText(p, localPart);
    ResolveText(q, localPart);
    NsUriInjective(p, q);
  }

  /** One registration call of the startup program: the tag written as prefix and local part. */
  datatype Registration = Registration(prefix: string, localPart: string, cls: ClassId)
  {
    /** The "prefix:local" string the call passes. */
    function Tag(): string
    {
      prefix + ":" + localPart
    }

    /** The tag resolves: its prefix is a plain known prefix. */
    predicate WellFormed()
    {
      ':' !in prefix && KnownPrefix(prefix)
    }

    /** The key the call writes. */
    function Key(): (k: Key)
      requires WellFormed()
      ensures Resolve(Tag()) == Ok(k)
      ensures k.1 == localPart
    {
      ResolveText(prefix, localPart);
      (NsUri(prefix).value, localPart)
    }
  }

  predicate AllWellFormed(regs: seq<Registration>)
  {
    forall i :: 0 <= i < |regs| ==> regs[i].WellFormed()
  }

  /** No tag (prefix and local part) occurs twice. */
  predicate DistinctTags(regs: seq<Registration>)
  {
    forall i, j :: 0 <= i < j < |regs| ==>
      (regs[i].prefix, regs[i].localPart) != (regs[j].prefix, regs[j].localPart)
  }

  /** No tag of a occurs in b. */
  predicate Apart(a: seq<Registration>, b: seq<Registration>)
  {
    forall i, j :: 0 <= i < |a| && 0 <= j < |b| ==>
      (a[i].prefix, a[i].localPart) != (b[j].prefix, b[j].localPart)
  }

  /** Where group k starts once the groups are laid end to end: the sizes of the groups before it. */
  function Offset(groups: seq<seq<Registration>>, k: nat): nat
    requires k <= |groups|
  {
    if k == 0 then 0 else Offset(groups, k - 1) + |groups[k - 1]|
  }

  /** Dropping groups after the k-th does not move it. */
  lemma {:induction false} OffsetPrefix(groups: seq<seq<Registration>>, n: nat, k: nat)
    requires k <= n <= |groups|
    ensures Offset(groups[..n], k) == Offset(groups, k)
  {
    if k > 0 {
      OffsetPrefix(groups, n, k - 1);
      assert groups[..n][k - 1] == groups[k - 1];
    }
  }

  /** The registrations of consecutive groups, in order; FlattenOrder says where each one lands. */
  function Flatten(groups: seq<seq<Registration>>): (r: seq<Registration>)
    ensures forall k, i :: 0 <= k < |groups| && 0 <= i < |groups[k]| ==> groups[k][i] in r
    ensures forall x :: x in r ==> exists k :: 0 <= k < |groups| && x in groups[k]
  {
    if |groups| == 0 then [] else Flatten(groups[..|groups| - 1]) + groups[|groups| - 1]
  }

  /** Flattening loses and adds nothing: the result is as long as all the groups together. */
  lemma {:induction false} FlattenLength(groups: seq<seq<Registration>>)
    ensures |Flatten(groups)| == Offset(groups, |groups|)
  {
    if |groups| > 0 {
      var n := |groups| - 1;
      FlattenLength(groups[..n]);
      OffsetPrefix(groups, n, n);
    }
  }

  /**
   * Flattening lays the groups end to end, in order: the i-th call of group
   * k sits at Offset(groups, k) + i.
   */
  lemma {:induction false} FlattenOrder(groups: seq<seq<Registration>>, k: nat, i: nat)
    requires k < |groups| && i < |groups[k]|
    ensures Offset(groups, k) + i < |Flatten(groups)|
    ensures Flatten(groups)[Offset(groups, k) + i] == groups[k][i]
  {
    var n := |groups| - 1;
    var init := groups[..n];
    assert Flatten(groups) == Flatten(init) + groups[n];
    FlattenLength(init);
    OffsetPrefix(groups, n, n);
    if k < n {
      FlattenOrder(init, k, i);
      OffsetPrefix(groups, n, k);
      OffsetPrefix(groups, n, k + 1);
    }
  }

  /** Groups that are each free of repeats and pairwise apart flatten to a list free of repeats. */
  lemma {:induction false} FlattenDistinct(groups: seq<seq<Registration>>)
    requires forall k :: 0 <= k < |groups| ==> DistinctTags(groups[k])
    requires forall k, l :: 0 <= k < l < |groups| ==> Apart(groups[k], groups[l])
    ensures DistinctTags(Flatten(groups))
  {
    if |groups| > 0 {
      var init, last := groups[..|groups| - 1], groups[|groups| - 1];
      FlattenDistinct(init);
      var a := Flatten(init);
      forall i, j | 0 <= i < |a| && 0 <= j < |last|
        ensures (a[i].prefix, a[i].localPart) != (last[j].prefix, last[j].localPart)
      {
        assert a[i] in a;
        var k :| 0 <= k < |init| && a[i] in init[k];
        var i' :| 0 <= i' < |init[k]| && init[k][i'] == a[i];
        assert Apart(groups[k], groups[|groups| - 1]);
      }
      var b := a + last;
      forall i, j | 0 <= i < j < |b|
        ensures (b[i].prefix, b[i].localPart) != (b[j].prefix, b[j].localPart)
      {
        if j < |a| {
          assert b[i] == a[i] && b[j] == a[j];
        } else if i >= |a| {
          assert b[i] == last[i - |a|] && b[j] == last[j - |a|];
        } else {
          assert b[i] == a[i] && b[j] == last[j - |a|];
        }
      }
    }
  }

  /** Groups that are each well-formed flatten to a well-formed list. */
  lemma FlattenWellFormed(groups: seq<seq<Registration>>)
    requires forall k :: 0 <= k < |groups| ==> AllWellFormed(groups[k])
    ensures AllWellFormed(Flatten(groups))
  {
    var r := Flatten(groups);
    forall i | 0 <= i < |r| ensures r[i].WellFormed() {
      assert r[i] in r;
      var k :| 0 <= k < |groups| && r[i] in groups[k];
    }
  }

  /** Well-formed registrations with distinct tags write distinct keys. */
  lemma DistinctTagsDistinctKeys(regs: seq<Registration>, i: nat, j: nat)
    requires AllWellFormed(regs) && DistinctTags(regs)
    requires i < |regs| && j < |regs| && i != j
    ensures regs[i].Key() != regs[j].Key()
  {
  }

  /**
   * A straight-line program of registrations, run until the first call that
   * raises: the table it leaves behind. Registration never removes a key.
   */
  function RegisterAll(classes: map<Key, ClassId>, regs: seq<Registration>): (r: map<Key, ClassId>)
    ensures classes.Keys <= r.Keys
    decreases |regs|
  {
    if |regs| == 0 then classes
    else match Registered(classes, regs[0].Tag(), regs[0].cls)
      case Err(_) => classes
      case Ok(next) => RegisterAll(next, regs[1..])
  }

  /** The error the program stops at, if any; a program of well-formed calls never stops. */
  function FirstError(classes: map<Key, ClassId>, regs: seq<Registration>): (e: Option<TagError>)
    ensures AllWellFormed(regs) ==> e.None?
    decreases |regs|
  {
    if |regs| == 0 then None
    else
      assert AllWellFormed(regs) ==> Resolve(regs[0].Tag()).Ok? by {
        if AllWellFormed(regs) { ResolveText(regs[0].prefix, regs[0].localPart); }
      }
      match Registered(classes, regs[0].Tag(), regs[0].cls)
      case Err(err) => Some(err)
      case Ok(next) => FirstError(next, regs[1..])
  }

  /** A key no call writes keeps its old entry, or stays absent. */
  lemma {:induction false} RegisterAllUntouched(classes: map<Key, ClassId>, regs: seq<Registration>, k: Key)
    requires AllWellFormed(regs)
    requires forall i :: 0 <= i < |regs| ==> regs[i].Key() != k
    ensures k in RegisterAll(classes, regs) <==> k in classes
    ensures k in classes ==> RegisterAll(classes, regs)[k] == classes[k]
    decreases |regs|
  {
    if |regs| > 0 {
      var k0 := regs[0].Key();
      assert Registered(classes, regs[0].Tag(), regs[0].cls) == Ok(classes[k0 := regs[0].cls]);
      assert forall i :: 0 <= i < |regs[1..]| ==> regs[1..][i] == regs[i + 1];
      RegisterAllUntouched(classes[k0 := regs[0].cls], regs[1..], k);
    }
  }

  /** The class a key ends up with is the one its last registration wrote. */
  lemma {:induction false} RegisterAllLastWins(classes: map<Key, ClassId>, regs: seq<Registration>, j: nat)
    requires AllWellFormed(regs) && j < |regs|
    requires forall i :: j < i < |regs| ==> regs[i].Key() != regs[j].Key()
    ensures regs[j].Key() in RegisterAll(classes, regs)
    ensures RegisterAll(classes, regs)[regs[j].Key()] == regs[j].cls
    decreases |regs|
  {
    var k0 := regs[0].Key();
    var next := classes[k0 := regs[0].cls];
    assert Registered(classes, regs[0].Tag(), regs[0].cls) == Ok(next);
    assert RegisterAll(classes, regs) == RegisterAll(next, regs[1..]);
    assert forall i :: 0 <= i < |regs[1..]| ==> regs[1..][i] == regs[i + 1];
    if j == 0 {
      RegisterAllUntouched(next, regs[1..], k0);
    } else {
      RegisterAllLastWins(next, regs[1..], j - 1);
    }
  }

  /** With no tag repeated, every registered tag resolves to its own class. */
  lemma RegisterAllDistinct(classes: map<Key, ClassId>, regs: seq<Registration>, j: nat)
    requires AllWellFormed(regs) && DistinctTags(regs) && j < |regs|
    ensures regs[j].Key() in RegisterAll(classes, regs)
    ensures RegisterAll(classes, regs)[regs[j].Key()] == regs[j].cls
  {
    forall i | j < i < |regs| ensures regs[i].Key() != regs[j].Key() {
      DistinctTagsDistinctKeys(regs, i, j);
    }
    RegisterAllLastWins(classes, regs, j);
  }

  /**
   * With no tag repeated, the order of the calls does not matter: any
   * arrangement of the same registrations leaves the same table.
   */
  lemma RegisterAllOrderIrrelevant(classes: map<Key, ClassId>, a: seq<Registration>, b: seq<Registration>)
    requires AllWellFormed(a) && DistinctTags(a) && DistinctTags(b)
    requires forall r :: r in a <==> r in b
    ensures RegisterAll(classes, a) == RegisterAll(classes, b)
  {
    assert AllWellFormed(b) by {
      forall i | 0 <= i < |b| ensures b[i].WellFormed() {
        assert b[i] in a;
      }
    }
    var ra, rb := RegisterAll(classes, a), RegisterAll(classes, b);
    forall k ensures (k in ra <==> k in rb) && (k in ra ==> ra[k] == rb[k]) {
      if i :| 0 <= i < |a| && a[i].Key() == k {
        assert a[i] in b;
        var j :| 0 <= j < |b| && b[j] == a[i];
        RegisterAllDistinct(classes, a, i);
        RegisterAllDistinct(classes, b, j);
      } else {
        RegisterAllUntouched(classes, a, k);
        forall j | 0 <= j < |b| ensures b[j].Key() != k {
          assert b[j] in a;
        }
        RegisterAllUntouched(classes, b, k);
      }
    }
  }

  /** The process-wide lookup the parser consults: element_class_lookup. */
  class ElementClassLookup {
    var classes: map<Key, ClassId>

    /** A lookup with nothing registered. */
    constructor()
      ensures classes == map[]
    {
      classes := map[];
    }

    /** The class registered under a namespace and local name, or None for an unregistered tag. */
    function Lookup(uri: Uri, localPart: string): (r: Option<ClassId>)
      reads this
      ensures r.Some? <==> (uri, localPart) in classes
      ensures r.Some? ==> r.value == classes[(uri, localPart)]
    {
      Find(classes, (uri, localPart))
    }

    /**
     * register_element_cls: resolves the tag and writes its key. On success
     * the tag now looks up to cls and every other key is as it was; a tag
     * that does not resolve raises and leaves the table alone.
     */
    method Register(tag: string, cls: ClassId) returns (outcome: Result<Key, TagError>)
      modifies this
      ensures outcome == Resolve(tag)
      ensures outcome.Ok? ==> Lookup(outcome.value.0, outcome.value.1) == Some(cls)
      ensures outcome.Ok? ==> forall k :: k != outcome.value ==> Lookup(k.0, k.1) == old(Lookup(k.0, k.1))
      ensures outcome.Err? ==> classes == old(classes)
      ensures outcome.Ok? ==> classes == Registered(old(classes), tag, cls).value
    {
      outcome := Resolve(tag);
      if outcome.Ok? {
        classes := classes[outcome.value := cls];
      }
    }

    /** Runs a straight-line program of registrations, stopping at the first call that raises. */
    method RegisterEach(regs: seq<Registration>) returns (error: Option<TagError>)
      modifies this
      ensures classes == RegisterAll(old(classes), regs)
      ensures error == FirstError(old(classes), regs)
    {
      var i := 0;
      while i < |regs|
        invariant 0 <= i <= |regs|
        invariant RegisterAll(old(classes), regs) == RegisterAll(classes, regs[i..])
        invariant FirstError(old(classes), regs) == FirstError(classes, regs[i..])
      {
        assert regs[i..][1..] == regs[i + 1..];
        var outcome := Register(regs[i].Tag(), regs[i].cls);
        if outcome.Err? {
          return Some(outcome.error);
        }
        i := i + 1;
      }
      error := None;
    }
  }
}
