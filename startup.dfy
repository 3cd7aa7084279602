/**
 * The module body of pptx/oxml/__init__.py: the fixed program of
 * register_element_cls calls that runs when the package is imported, kept in
 * source order and grouped, as the source groups it, by the module the
 * classes come from.
 */
module OxmlStartup {
  import opened Wrappers
  import opened Namespaces
  import opened Oxml
  import opened StartupTags

  // from .chart.axis
  const ChartAxis: seq<Registration> := [
    Registration("c", "catAx", CT_CatAx),
    Registration("c", "majorTickMark", CT_TickMark),
    Registration("c", "minorTickMark", CT_TickMark),
    Registration("c", "scaling", CT_Scaling),
    Registration("c", "tickLblPos", CT_TickLblPos),
    Registration("c", "valAx", CT_ValAx)
  ]

  // from .chart.chart
  const ChartChart: seq<Registration> := [
    Registration("c", "chart", CT_Chart),
    Registration("c", "chartSpace", CT_ChartSpace),
    Registration("c", "plotArea", CT_PlotArea),
    Registration("c", "style", CT_Style)
  ]

  // from .chart.plot
  const ChartPlot: seq<Registration> := [
    Registration("c", "area3DChart", CT_Area3DChart),
    Registration("c", "areaChart", CT_AreaChart),
    Registration("c", "barChart", CT_BarChart),
    Registration("c", "dLbls", CT_DLbls),
    Registration("c", "gapWidth", CT_GapAmount),
    Registration("c", "grouping", CT_Grouping),
    Registration("c", "lineChart", CT_LineChart),
    Registration("c", "pieChart", CT_PieChart)
  ]

  // from .chart.series
  const ChartSeries: seq<Registration> := [
    Registration("c", "ser", CT_SeriesComposite)
  ]

  // from .chart.shared
  const ChartShared: seq<Registration> := [
    Registration("c", "delete", CT_Boolean),
    Registration("c", "invertIfNegative", CT_Boolean),
    Registration("c", "max", CT_Double),
    Registration("c", "min", CT_Double),
    Registration("c", "numFmt", CT_NumFmt)
  ]

  // from .dml.color
  const DmlColor: seq<Registration> := [
    Registration("a", "hslClr", CT_HslColor),
    Registration("a", "lumMod", CT_Percentage),
    Registration("a", "lumOff", CT_Percentage),
    Registration("a", "prstClr", CT_PresetColor),
    Registration("a", "schemeClr", CT_SchemeColor),
    Registration("a", "scrgbClr", CT_ScRgbColor),
    Registration("a", "srgbClr", CT_SRgbColor),
    Registration("a", "sysClr", CT_SystemColor)
  ]

  // from .dml.fill
  const DmlFill: seq<Registration> := [
    Registration("a", "blipFill", CT_BlipFillProperties),
    Registration("a", "gradFill", CT_GradientFillProperties),
    Registration("a", "grpFill", CT_GroupFillProperties),
    Registration("a", "noFill", CT_NoFillProperties),
    Registration("a", "pattFill", CT_PatternFillProperties),
    Registration("a", "solidFill", CT_SolidColorFillProperties)
  ]

  // from .parts.coreprops
  const PartsCoreprops: seq<Registration> := [
    Registration("cp", "coreProperties", CT_CoreProperties)
  ]

  // from .parts.presentation
  const PartsPresentation: seq<Registration> := [
    Registration("p", "presentation", CT_Presentation),
    Registration("p", "sldId", CT_SlideId),
    Registration("p", "sldIdLst", CT_SlideIdList),
    Registration("p", "sldMasterId", CT_SlideMasterIdListEntry),
    Registration("p", "sldMasterIdLst", CT_SlideMasterIdList),
    Registration("p", "sldSz", CT_SlideSize)
  ]

  // from .parts.slide
  const PartsSlide: seq<Registration> := [
    Registration("p", "cSld", CT_CommonSlideData),
    Registration("p", "sld", CT_Slide)
  ]

  // from .parts.slidelayout
  const PartsSlidelayout: seq<Registration> := [
    Registration("p", "sldLayout", CT_SlideLayout)
  ]

  // from .parts.slidemaster
  const PartsSlidemaster: seq<Registration> := [
    Registration("p", "sldLayoutId", CT_SlideLayoutIdListEntry),
    Registration("p", "sldLayoutIdLst", CT_SlideLayoutIdList),
    Registration("p", "sldMaster", CT_SlideMaster)
  ]

  // from .shapes.autoshape
  const ShapesAutoshape: seq<Registration> := [
    Registration("a", "avLst", CT_GeomGuideList),
    Registration("a", "gd", CT_GeomGuide),
    Registration("a", "prstGeom", CT_PresetGeometry2D),
    Registration("p", "cNvSpPr", CT_NonVisualDrawingShapeProps),
    Registration("p", "nvSpPr", CT_ShapeNonVisual),
    Registration("p", "sp", CT_Shape)
  ]

  // from .shapes.connector
  const ShapesConnector: seq<Registration> := [
    Registration("p", "cxnSp", CT_Connector),
    Registration("p", "nvCxnSpPr", CT_ConnectorNonVisual)
  ]

  // from .shapes.graphfrm
  const ShapesGraphfrm: seq<Registration> := [
    Registration("a", "graphic", CT_GraphicalObject),
    Registration("a", "graphicData", CT_GraphicalObjectData),
    Registration("p", "graphicFrame", CT_GraphicalObjectFrame),
    Registration("p", "nvGraphicFramePr", CT_GraphicalObjectFrameNonVisual)
  ]

  // from .shapes.groupshape
  const ShapesGroupshape: seq<Registration> := [
    Registration("p", "grpSp", CT_GroupShape),
    Registration("p", "grpSpPr", CT_GroupShapeProperties),
    Registration("p", "nvGrpSpPr", CT_GroupShapeNonVisual),
    Registration("p", "spTree", CT_GroupShape)
  ]

  // from .shapes.picture
  const ShapesPicture: seq<Registration> := [
    Registration("p", "nvPicPr", CT_PictureNonVisual),
    Registration("p", "pic", CT_Picture)
  ]

  // from .shapes.shared
  const ShapesShared: seq<Registration> := [
    Registration("a", "ext", CT_PositiveSize2D),
    Registration("a", "ln", CT_LineProperties),
    Registration("a", "off", CT_Point2D),
    Registration("a", "xfrm", CT_Transform2D),
    Registration("c", "spPr", CT_ShapeProperties),
    Registration("p", "cNvPr", CT_NonVisualDrawingProps),
    Registration("p", "nvPr", CT_ApplicationNonVisualDrawingProps),
    Registration("p", "ph", CT_Placeholder),
    Registration("p", "spPr", CT_ShapeProperties),
    Registration("p", "xfrm", CT_Transform2D)
  ]

  // from .shapes.table
  const ShapesTable: seq<Registration> := [
    Registration("a", "gridCol", CT_TableCol),
    Registration("a", "tbl", CT_Table),
    Registration("a", "tblGrid", CT_TableGrid),
    Registration("a", "tblPr", CT_TableProperties),
    Registration("a", "tc", CT_TableCell),
    Registration("a", "tcPr", CT_TableCellProperties),
    Registration("a", "tr", CT_TableRow)
  ]

  // from .text
  const Text: seq<Registration> := [
    Registration("a", "bodyPr", CT_TextBodyProperties),
    Registration("a", "defRPr", CT_TextCharacterProperties),
    Registration("a", "endParaRPr", CT_TextCharacterProperties),
    Registration("a", "hlinkClick", CT_Hyperlink),
    Registration("a", "latin", CT_TextFont),
    Registration("a", "r", CT_RegularTextRun),
    Registration("a", "p", CT_TextParagraph),
    Registration("a", "pPr", CT_TextParagraphProperties),
    Registration("a", "rPr", CT_TextCharacterProperties),
    Registration("a", "txBody", CT_TextBody),
    Registration("c", "txPr", CT_TextBody),
    Registration("p", "txBody", CT_TextBody)
  ]

  /** The registration groups in the order the module body runs them. */
  const StartupGroups: seq<seq<Registration>> := [
    ChartAxis,
    ChartChart,
    ChartPlot,
    ChartSeries,
    ChartShared,
    DmlColor,
    DmlFill,
    PartsCoreprops,
    PartsPresentation,
    PartsSlide,
    PartsSlidelayout,
    PartsSlidemaster,
    ShapesAutoshape,
    ShapesConnector,
    ShapesGraphfrm,
    ShapesGroupshape,
    ShapesPicture,
    ShapesShared,
    ShapesTable,
    Text
  ]

  /** Every registration call of the module body, in order. */
  const StartupRegistrations: seq<Registration> := Flatten(StartupGroups)

  /** The lookup table once the package has been imported. */
  function StartupRegistry(): map<Key, ClassId>
  {
    RegisterAll(map[], StartupRegistrations)
  }

  /**
   * Importing the package: the lookup starts empty and the module body
   * registers every group; the error of the first call that raised, if any,
   * is returned, and there is none.
   */
  method ImportOxml() returns (lookup: ElementClassLookup, error: Option<TagError>)
    ensures fresh(lookup)
    ensures error == None
    ensures lookup.classes == StartupRegistry()
  {
    lookup := new ElementClassLookup();
    error := lookup.RegisterEach(StartupRegistrations);
    StartupWellFormed();
  }

  // Checks on the literal table. They are split into small lemmas so that
  // each stays cheap for the verifier.

  lemma GroupTagsCover()
    ensures |GroupTags| == |StartupGroups|
    ensures forall k :: 0 <= k < |StartupGroups| ==>
      forall i :: 0 <= i < |StartupGroups[k]| ==>
        (StartupGroups[k][i].prefix, StartupGroups[k][i].localPart) in GroupTags[k]
  {
  }

  lemma GroupsDistinctA()
    ensures forall k :: 0 <= k < 6 ==> DistinctTags(StartupGroups[k])
  {
  }

  lemma GroupsDistinctB()
    ensures forall k :: 6 <= k < 12 ==> DistinctTags(StartupGroups[k])
  {
  }

  lemma GroupsDistinctC()
    ensures forall k :: 12 <= k < 18 ==> DistinctTags(StartupGroups[k])
  {
  }

  lemma GroupsDistinctD()
    ensures forall k :: 18 <= k < 20 ==> DistinctTags(StartupGroups[k])
  {
  }

  lemma GroupsWellFormedA()
    ensures forall k :: 0 <= k < 7 ==> AllWellFormed(StartupGroups[k])
  {
  }

  lemma GroupsWellFormedB()
    ensures forall k :: 7 <= k < 14 ==> AllWellFormed(StartupGroups[k])
  {
  }

  lemma GroupsWellFormedC()
    ensures forall k :: 14 <= k < 20 ==> AllWellFormed(StartupGroups[k])
  {
  }

  /** Every call of the module body uses a known prefix, so importing never raises. */
  lemma StartupWellFormed()
    ensures AllWellFormed(StartupRegistrations)
    ensures FirstError(map[], StartupRegistrations) == None
  {
    GroupsWellFormedA();
    GroupsWellFormedB();
    GroupsWellFormedC();
    FlattenWellFormed(StartupGroups);
  }

  /** No tag is registered by two different groups. */
  lemma StartupGroupsApart()
    ensures forall k, l :: 0 <= k < l < |StartupGroups| ==> Apart(StartupGroups[k], StartupGroups[l])
  {
    GroupTagsCover();
    GroupTagsApart();
    forall k, l | 0 <= k < l < |StartupGroups| ensures Apart(StartupGroups[k], StartupGroups[l]) {
      assert GroupTags[k] !! GroupTags[l];
    }
  }

  /** No tag is registered twice by the module body. */
  lemma StartupTagsDistinct()
    ensures DistinctTags(StartupRegistrations)
  {
    GroupsDistinctA();
    GroupsDistinctB();
    GroupsDistinctC();
    GroupsDistinctD();
    StartupGroupsApart();
    FlattenDistinct(StartupGroups);
  }

  /** Every call of the module body is in effect after import: its tag finds its class. */
  lemma StartupRegistryComplete(r: Registration)
    requires r in StartupRegistrations
    ensures r.WellFormed()
    ensures r.Key() in StartupRegistry() && StartupRegistry()[r.Key()] == r.cls
    ensures ClassForTag(StartupRegistry(), r.Tag()) == Some(r.cls)
  {
    StartupWellFormed();
    StartupTagsDistinct();
    var j :| 0 <= j < |StartupRegistrations| && StartupRegistrations[j] == r;
    RegisterAllDistinct(map[], StartupRegistrations, j);
  }

  /** The table holds nothing but what the module body registers. */
  lemma StartupRegistryExact(uri: Uri, localPart: string)
    ensures (uri, localPart) in StartupRegistry() <==>
      exists r :: r in StartupRegistrations && r.WellFormed() && r.Key() == (uri, localPart)
    ensures (uri, localPart) in StartupRegistry() ==>
      exists r :: r in StartupRegistrations && r.WellFormed() && r.Key() == (uri, localPart)
        && StartupRegistry()[(uri, localPart)] == r.cls
  {
    StartupWellFormed();
    var regs, k := StartupRegistrations, (uri, localPart);
    if i :| 0 <= i < |regs| && regs[i].Key() == k {
      StartupRegistryComplete(regs[i]);
      assert regs[i] in regs;
    } else {
      RegisterAllUntouched(map[], regs, k);
      forall r | r in regs && r.WellFormed() ensures r.Key() != k {
        var i :| 0 <= i < |regs| && regs[i] == r;
      }
    }
  }

  /**
   * The order of the module body does not matter: any arrangement of the
   * same calls, each made once, builds the same table.
   */
  lemma StartupOrderIrrelevant(regs: seq<Registration>)
    requires DistinctTags(regs)
    requires forall r :: r in regs <==> r in StartupRegistrations
    ensures RegisterAll(map[], regs) == StartupRegistry()
  {
    StartupWellFormed();
    StartupTagsDistinct();
    RegisterAllOrderIrrelevant(map[], StartupRegistrations, regs);
  }

  /** Every call of group g is in effect in table t. */
  predicate InTable(t: map<Key, ClassId>, g: seq<Registration>)
  {
    forall i :: 0 <= i < |g| ==> g[i].WellFormed() && Find(t, g[i].Key()) == Some(g[i].cls)
  }

  /** Each group of the module body is in effect after import. */
  lemma GroupInEffect(k: nat)
    requires k < |StartupGroups|
    ensures InTable(StartupRegistry(), StartupGroups[k])
  {
    forall i | 0 <= i < |StartupGroups[k]|
      ensures StartupGroups[k][i].WellFormed()
      ensures Find(StartupRegistry(), StartupGroups[k][i].Key()) == Some(StartupGroups[k][i].cls)
    {
      StartupRegistryComplete(StartupGroups[k][i]);
    }
  }

  lemma ShapeGroupsInEffect()
    ensures InTable(StartupRegistry(), ShapesAutoshape) && InTable(StartupRegistry(), ShapesConnector)
    ensures InTable(StartupRegistry(), ShapesGraphfrm) && InTable(StartupRegistry(), ShapesGroupshape)
    ensures InTable(StartupRegistry(), ShapesPicture) && InTable(StartupRegistry(), ShapesShared)
  {
    assert StartupGroups[12] == ShapesAutoshape && StartupGroups[13] == ShapesConnector;
    assert StartupGroups[14] == ShapesGraphfrm && StartupGroups[15] == ShapesGroupshape;
    assert StartupGroups[16] == ShapesPicture && StartupGroups[17] == ShapesShared;
    GroupInEffect(12);
    GroupInEffect(13);
    GroupInEffect(14);
    GroupInEffect(15);
    GroupInEffect(16);
    GroupInEffect(17);
  }

  lemma ChartAndTextGroupsInEffect()
    ensures InTable(StartupRegistry(), ChartAxis) && InTable(StartupRegistry(), Text)
  {
    assert StartupGroups[0] == ChartAxis && StartupGroups[19] == Text;
    GroupInEffect(0);
    GroupInEffect(19);
  }

  /** In a table holding the shape groups, each shape element and the placeholder marker has its own class. */
  lemma ShapeClassesIn(t: map<Key, ClassId>)
    requires InTable(t, ShapesAutoshape) && InTable(t, ShapesConnector) && InTable(t, ShapesGraphfrm)
    requires InTable(t, ShapesGroupshape) && InTable(t, ShapesPicture) && InTable(t, ShapesShared)
    ensures Find(t, (PresentationMl, "sp")) == Some(CT_Shape)
    ensures Find(t, (PresentationMl, "cxnSp")) == Some(CT_Connector)
    ensures Find(t, (PresentationMl, "graphicFrame")) == Some(CT_GraphicalObjectFrame)
    ensures Find(t, (PresentationMl, "grpSp")) == Some(CT_GroupShape)
    ensures Find(t, (PresentationMl, "pic")) == Some(CT_Picture)
    ensures Find(t, (PresentationMl, "ph")) == Some(CT_Placeholder)
  {
    assert ShapesAutoshape[5].Key() == (PresentationMl, "sp");
    assert ShapesConnector[0].Key() == (PresentationMl, "cxnSp");
    assert ShapesGraphfrm[2].Key() == (PresentationMl, "graphicFrame");
    assert ShapesGroupshape[0].Key() == (PresentationMl, "grpSp");
    assert ShapesPicture[1].Key() == (PresentationMl, "pic");
    assert ShapesShared[7].Key() == (PresentationMl, "ph");
  }

  /** After import, p:sp, p:cxnSp, p:graphicFrame, p:grpSp, p:pic and p:ph each find their own class. */
  lemma ShapeElementClasses()
    ensures Find(StartupRegistry(), (PresentationMl, "sp")) == Some(CT_Shape)
    ensures Find(StartupRegistry(), (PresentationMl, "cxnSp")) == Some(CT_Connector)
    ensures Find(StartupRegistry(), (PresentationMl, "graphicFrame")) == Some(CT_GraphicalObjectFrame)
    ensures Find(StartupRegistry(), (PresentationMl, "grpSp")) == Some(CT_GroupShape)
    ensures Find(StartupRegistry(), (PresentationMl, "pic")) == Some(CT_Picture)
    ensures Find(StartupRegistry(), (PresentationMl, "ph")) == Some(CT_Placeholder)
  {
    ShapeGroupsInEffect();
    ShapeClassesIn(StartupRegistry());
  }

  /** One class under several tags: the tick marks, the group shape and the shape tree, three text bodies. */
  lemma SharedClassesIn(t: map<Key, ClassId>)
    requires InTable(t, ChartAxis) && InTable(t, ShapesGroupshape) && InTable(t, Text)
    ensures Find(t, (Chart, "majorTickMark")) == Some(CT_TickMark)
    ensures Find(t, (Chart, "minorTickMark")) == Some(CT_TickMark)
    ensures Find(t, (PresentationMl, "grpSp")) == Some(CT_GroupShape)
    ensures Find(t, (PresentationMl, "spTree")) == Some(CT_GroupShape)
    ensures Find(t, (DrawingMl, "txBody")) == Some(CT_TextBody)
    ensures Find(t, (Chart, "txPr")) == Some(CT_TextBody)
    ensures Find(t, (PresentationMl, "txBody")) == Some(CT_TextBody)
  {
    assert ChartAxis[1].Key() == (Chart, "majorTickMark");
    assert ChartAxis[2].Key() == (Chart, "minorTickMark");
    assert ShapesGroupshape[0].Key() == (PresentationMl, "grpSp");
    assert ShapesGroupshape[3].Key() == (PresentationMl, "spTree");
    assert Text[9].Key() == (DrawingMl, "txBody");
    assert Text[10].Key() == (Chart, "txPr");
    assert Text[11].Key() == (PresentationMl, "txBody");
  }

  /** After import, several tags share a class and remain separate entries. */
  lemma SharedClasses()
    ensures Find(StartupRegistry(), (Chart, "majorTickMark")) == Some(CT_TickMark)
    ensures Find(StartupRegistry(), (Chart, "minorTickMark")) == Some(CT_TickMark)
    ensures Find(StartupRegistry(), (PresentationMl, "grpSp")) == Some(CT_GroupShape)
    ensures Find(StartupRegistry(), (PresentationMl, "spTree")) == Some(CT_GroupShape)
    ensures Find(StartupRegistry(), (DrawingMl, "txBody")) == Some(CT_TextBody)
    ensures Find(StartupRegistry(), (Chart, "txPr")) == Some(CT_TextBody)
    ensures Find(StartupRegistry(), (PresentationMl, "txBody")) == Some(CT_TextBody)
  {
    ChartAndTextGroupsInEffect();
    ShapeGroupsInEffect();
    SharedClassesIn(StartupRegistry());
  }

  /** In a table holding the shared-shape and text groups, the prefixed twins each hold their class. */
  lemma PrefixedTwinsIn(t: map<Key, ClassId>)
    requires InTable(t, ShapesShared) && InTable(t, Text)
    ensures Find(t, (DrawingMl, "xfrm")) == Some(CT_Transform2D)
    ensures Find(t, (PresentationMl, "xfrm")) == Some(CT_Transform2D)
    ensures Find(t, (Chart, "spPr")) == Some(CT_ShapeProperties)
    ensures Find(t, (PresentationMl, "spPr")) == Some(CT_ShapeProperties)
    ensures Find(t, (DrawingMl, "txBody")) == Some(CT_TextBody)
    ensures Find(t, (PresentationMl, "txBody")) == Some(CT_TextBody)
  {
    assert ShapesShared[3].Key() == (DrawingMl, "xfrm");
    assert ShapesShared[9].Key() == (PresentationMl, "xfrm");
    assert ShapesShared[4].Key() == (Chart, "spPr");
    assert ShapesShared[8].Key() == (PresentationMl, "spPr");
    assert Text[9].Key() == (DrawingMl, "txBody");
    assert Text[11].Key() == (PresentationMl, "txBody");
  }

  /**
   * Same local part, different prefixes: a:xfrm and p:xfrm, c:spPr and p:spPr,
   * a:txBody and p:txBody are separate entries after import, each with its class.
   */
  lemma PrefixedTwins()
    ensures DrawingMl != PresentationMl && Chart != PresentationMl
    ensures Find(StartupRegistry(), (DrawingMl, "xfrm")) == Some(CT_Transform2D)
    ensures Find(StartupRegistry(), (PresentationMl, "xfrm")) == Some(CT_Transform2D)
    ensures Find(StartupRegistry(), (Chart, "spPr")) == Some(CT_ShapeProperties)
    ensures Find(StartupRegistry(), (PresentationMl, "spPr")) == Some(CT_ShapeProperties)
    ensures Find(StartupRegistry(), (DrawingMl, "txBody")) == Some(CT_TextBody)
    ensures Find(StartupRegistry(), (PresentationMl, "txBody")) == Some(CT_TextBody)
  {
    NsUriInjective("a", "p");
    NsUriInjective("c", "p");
    ShapeGroupsInEffect();
    ChartAndTextGroupsInEffect();
    PrefixedTwinsIn(StartupRegistry());
  }
}
