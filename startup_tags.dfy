/** The tag sets of the startup registration groups, compared group against group. */
module StartupTags {
  /**
   * The tags of each group, written out again as sets of (prefix, local
   * part) pairs. This copy exists only to keep the disjointness proofs cheap:
   * the solver compares small set displays far faster than it walks the
   * registration groups. GroupTagsCover, next to the groups, proves that
   * every tag of group k is in GroupTags[k], which is all the proofs need.
   */
  const GroupTags: seq<set<(string, string)>> := [
    {("c", "catAx"), ("c", "majorTickMark"), ("c", "minorTickMark"), ("c", "scaling"), ("c", "tickLblPos"), ("c", "valAx")},
    {("c", "chart"), ("c", "chartSpace"), ("c", "plotArea"), ("c", "style")},
    {("c", "area3DChart"), ("c", "areaChart"), ("c", "barChart"), ("c", "dLbls"), ("c", "gapWidth"), ("c", "grouping"), ("c", "lineChart"), ("c", "pieChart")},
    {("c", "ser")},
    {("c", "delete"), ("c", "invertIfNegative"), ("c", "max"), ("c", "min"), ("c", "numFmt")},
    {("a", "hslClr"), ("a", "lumMod"), ("a", "lumOff"), ("a", "prstClr"), ("a", "schemeClr"), ("a", "scrgbClr"), ("a", "srgbClr"), ("a", "sysClr")},
    {("a", "blipFill"), ("a", "gradFill"), ("a", "grpFill"), ("a", "noFill"), ("a", "pattFill"), ("a", "solidFill")},
    {("cp", "coreProperties")},
    {("p", "presentation"), ("p", "sldId"), ("p", "sldIdLst"), ("p", "sldMasterId"), ("p", "sldMasterIdLst"), ("p", "sldSz")},
    {("p", "cSld"), ("p", "sld")},
    {("p", "sldLayout")},
    {("p", "sldLayoutId"), ("p", "sldLayoutIdLst"), ("p", "sldMaster")},
    {("a", "avLst"), ("a", "gd"), ("a", "prstGeom"), ("p", "cNvSpPr"), ("p", "nvSpPr"), ("p", "sp")},
    {("p", "cxnSp"), ("p", "nvCxnSpPr")},
    {("a", "graphic"), ("a", "graphicData"), ("p", "graphicFrame"), ("p", "nvGraphicFramePr")},
    {("p", "grpSp"), ("p", "grpSpPr"), ("p", "nvGrpSpPr"), ("p", "spTree")},
    {("p", "nvPicPr"), ("p", "pic")},
    {("a", "ext"), ("a", "ln"), ("a", "off"), ("a", "xfrm"), ("c", "spPr"), ("p", "cNvPr"), ("p", "nvPr"), ("p", "ph"), ("p", "spPr"), ("p", "xfrm")},
    {("a", "gridCol"), ("a", "tbl"), ("a", "tblGrid"), ("a", "tblPr"), ("a", "tc"), ("a", "tcPr"), ("a", "tr")},
    {("a", "bodyPr"), ("a", "defRPr"), ("a", "endParaRPr"), ("a", "hlinkClick"), ("a", "latin"), ("a", "r"), ("a", "p"), ("a", "pPr"), ("a", "rPr"), ("a", "txBody"), ("c", "txPr"), ("p", "txBody")}
  ]

  // Each lemma below compares one group with a range of the groups before it; the
  // solver handles a few set displays at a time, so the comparisons are split up.

  lemma Apart1From0()
    ensures forall k :: 0 <= k < 1 ==> GroupTags[k] !! GroupTags[1]
  {
  }

  lemma Apart2From0()
    ensures forall k :: 0 <= k < 2 ==> GroupTags[k] !! GroupTags[2]
  {
  }

  lemma Apart3From0()
    ensures forall k :: 0 <= k < 3 ==> GroupTags[k] !! GroupTags[3]
  {
  }

  lemma Apart4From0()
    ensures forall k :: 0 <= k < 4 ==> GroupTags[k] !! GroupTags[4]
  {
  }

  lemma Apart5From0()
    ensures forall k :: 0 <= k < 5 ==> GroupTags[k] !! GroupTags[5]
  {
  }

  lemma Apart6From0()
    ensures forall k :: 0 <= k < 6 ==> GroupTags[k] !! GroupTags[6]
  {
  }

  lemma Apart7From0()
    ensures forall k :: 0 <= k < 7 ==> GroupTags[k] !! GroupTags[7]
  {
  }

  lemma Apart8From0()
    ensures forall k :: 0 <= k < 8 ==> GroupTags[k] !! GroupTags[8]
  {
  }

  lemma Apart9From0()
    ensures forall k :: 0 <= k < 9 ==> GroupTags[k] !! GroupTags[9]
  {
  }

  lemma Apart10From0()
    ensures forall k :: 0 <= k < 10 ==> GroupTags[k] !! GroupTags[10]
  {
  }

  lemma Apart11From0()
    ensures forall k :: 0 <= k < 11 ==> GroupTags[k] !! GroupTags[11]
  {
  }

  lemma Apart12From0()
    ensures forall k :: 0 <= k < 6 ==> GroupTags[k] !! GroupTags[12]
  {
  }

  lemma Apart12From6()
    ensures forall k :: 6 <= k < 12 ==> GroupTags[k] !! GroupTags[12]
  {
  }

  lemma Apart13From0()
    ensures forall k :: 0 <= k < 13 ==> GroupTags[k] !! GroupTags[13]
  {
  }

  lemma Apart14From0()
    ensures forall k :: 0 <= k < 14 ==> GroupTags[k] !! GroupTags[14]
  {
  }

  lemma Apart15From0()
    ensures forall k :: 0 <= k < 15 ==> GroupTags[k] !! GroupTags[15]
  {
  }

  lemma Apart16From0()
    ensures forall k :: 0 <= k < 16 ==> GroupTags[k] !! GroupTags[16]
  {
  }

  lemma Apart17From0()
    ensures forall k :: 0 <= k < 3 ==> GroupTags[k] !! GroupTags[17]
  {
  }

  lemma Apart17From3()
    ensures forall k :: 3 <= k < 6 ==> GroupTags[k] !! GroupTags[17]
  {
  }

  lemma Apart17From6()
    ensures forall k :: 6 <= k < 9 ==> GroupTags[k] !! GroupTags[17]
  {
  }

  lemma Apart17From9()
    ensures forall k :: 9 <= k < 13 ==> GroupTags[k] !! GroupTags[17]
  {
  }

  lemma Apart17From13()
    ensures forall k :: 13 <= k < 17 ==> GroupTags[k] !! GroupTags[17]
  {
  }

  lemma Apart18From0()
    ensures forall k :: 0 <= k < 6 ==> GroupTags[k] !! GroupTags[18]
  {
  }

  lemma Apart18From6()
    ensures forall k :: 6 <= k < 12 ==> GroupTags[k] !! GroupTags[18]
  {
  }

  lemma Apart18From12()
    ensures forall k :: 12 <= k < 18 ==> GroupTags[k] !! GroupTags[18]
  {
  }

  lemma Apart19From0()
    ensures forall k :: 0 <= k < 5 ==> GroupTags[k] !! GroupTags[19]
  {
  }

  lemma Apart19From5()
    ensures forall k :: 5 <= k < 10 ==> GroupTags[k] !! GroupTags[19]
  {
  }

  lemma Apart19From10()
    ensures forall k :: 10 <= k < 15 ==> GroupTags[k] !! GroupTags[19]
  {
  }

  lemma Apart19From15()
    ensures forall k :: 15 <= k < 19 ==> GroupTags[k] !! GroupTags[19]
  {
  }

  /** No tag belongs to two groups. */
  lemma GroupTagsApart()
    ensures forall k, l :: 0 <= k < l < |GroupTags| ==> GroupTags[k] !! GroupTags[l]
  {
    Apart1From0();
    Apart2From0();
    Apart3From0();
    Apart4From0();
    Apart5From0();
    Apart6From0();
    Apart7From0();
    Apart8From0();
    Apart9From0();
    Apart10From0();
    Apart11From0();
    Apart12From0();
    Apart12From6();
    Apart13From0();
    Apart14From0();
    Apart15From0();
    Apart16From0();
    Apart17From0();
    Apart17From3();
    Apart17From6();
    Apart17From9();
    Apart17From13();
    Apart18From0();
    Apart18From6();
    Apart18From12();
    Apart19From0();
    Apart19From5();
    Apart19From10();
    Apart19From15();
  }
}
