/**
 * Admission of RIC action definitions by the E2SM-KPM service model (the
 * RIC Action Definition IE of O-RAN E2SM-KPM, section 8.2.1.2 of version 3):
 * styles 1 to 5, each carrying its own action definition format. Action
 * definitions are given already decoded; only the fields the validators
 * read are kept.
 */
module E2smKpm {
  import opened Wrappers

  /** The test-condition types an E2SM-KPM matching condition can name. */
  datatype TestCondType = Gbr | Ambr | IsStat | IsCatM | Rsrp | Rsrq | UlRsrp | Cqi | FiveQi | Qci | SNssai

  /** A measurement label; only whether it is the NO_LABEL label matters here. */
  datatype MeasLabel = MeasLabel(noLabelPresent: bool)

  /** One entry of a measurement info list: a metric name and its labels. */
  datatype MeasInfoItem = MeasInfoItem(measName: string, labelInfoList: seq<MeasLabel>)

  /** A matching condition of format 3: a test condition or a measurement label. */
  datatype MatchingCond = TestCondInfo(testType: TestCondType) | MeasLabelCond(measLabel: MeasLabel)

  /** One measurement condition of format 3: a metric name and its matching conditions. */
  datatype MeasCondItem = MeasCondItem(measName: string, matchingCond: seq<MatchingCond>)

  /** Format 1: per-node measurements, optionally scoped to one cell. */
  datatype Format1 = Format1(cellGlobalIdPresent: bool, granulPeriod: nat, measInfoList: seq<MeasInfoItem>)

  datatype ActionDefinitionFormat =
    | F1(format1: Format1)
    /** Format 2: one UE's measurements. */
    | F2(ueId: nat, subscriptInfo: Format1)
    /** Format 3: condition-based UE-level measurements. */
    | F3(cellGlobalIdPresent: bool, granulPeriod: nat, measCondList: seq<MeasCondItem>)
    /** Format 4: measurements of the UEs matching common conditions. */
    | F4(matchingUeCondList: seq<TestCondType>, subscriptionInfo: Format1)
    /** Format 5: measurements of a list of UEs. */
    | F5(matchingUeIdList: seq<nat>, subscriptionInfo: Format1)

  datatype ActionDefinition = ActionDefinition(ricStyleType: int, formats: ActionDefinitionFormat)

  /** The metric levels a metric may be requested at. */
  datatype MetricLevel = E2NodeLevel | UeLevel

  /** The report services the model creates for an action definition. */
  datatype ReportService = Style1Service(def: ActionDefinition) | Style3Service(def: ActionDefinition)

  /** The metric names the service model is built with. */
  const DefaultSupportedMetrics: seq<string> := ["CQI", "RSRP", "RSRQ"]

  /** Style types 1 to 5 carry the format with the same number; the decoder's choice accessors demand it. */
  predicate FormatMatchesStyle(def: ActionDefinition)
  {
    match def.ricStyleType
    case 1 => def.formats.F1?
    case 2 => def.formats.F2?
    case 3 => def.formats.F3?
    case 4 => def.formats.F4?
    case 5 => def.formats.F5?
    case _ => true
  }

  const Uint32Modulus: int := 0x1_0000_0000

  /** The conversion of an integer to `uint32_t`: the value modulo 2^32, in 0 .. 2^32 - 1. */
  function ToUint32(x: int): (r: int)
    ensures 0 <= r < Uint32Modulus
    ensures (x - r) % Uint32Modulus == 0
    ensures 0 <= x < Uint32Modulus ==> r == x
  {
    x % Uint32Modulus
  }

  /** Whether a test-condition type is one of those the service model supports. */
  function SupportedTestCondType(t: TestCondType): (r: bool)
    ensures t == Cqi ==> r
    ensures t == Rsrp ==> r
    ensures t == Rsrq ==> r
    ensures t != Cqi && t != Rsrp && t != Rsrq ==> !r
  {
    if t.Cqi? then true
    else if t.Rsrp? then true
    else if t.Rsrq? then true
    else false
  }

  /** Every label of the item is NO_LABEL and the item names a metric of `metrics`. */
  ghost predicate ItemAcceptable(item: MeasInfoItem, metrics: seq<string>)
  {
    forall l :: 0 <= l < |item.labelInfoList| ==> item.labelInfoList[l].noLabelPresent && item.measName in metrics
  }

  /** Every item of the list is acceptable. */
  ghost predicate MeasInfoAcceptable(list: seq<MeasInfoItem>, metrics: seq<string>)
  {
    forall i :: 0 <= i < |list| ==> ItemAcceptable(list[i], metrics)
  }

  /** Every measurement-label matching condition names a metric of `metrics`; test conditions are not restricted. */
  ghost predicate MeasCondAcceptable(list: seq<MeasCondItem>, metrics: seq<string>)
  {
    forall i, m :: 0 <= i < |list| && 0 <= m < |list[i].matchingCond| && list[i].matchingCond[m].MeasLabelCond?
      ==> list[i].measName in metrics
  }

  /** A non-empty list is acceptable when its head is and its tail is. */
  lemma MeasInfoAcceptableSplit(list: seq<MeasInfoItem>, metrics: seq<string>)
    requires list != []
    ensures MeasInfoAcceptable(list, metrics) <==> ItemAcceptable(list[0], metrics) && MeasInfoAcceptable(list[1..], metrics)
  {
    assert forall i :: 0 < i < |list| ==> list[i] == list[1..][i - 1];
  }

  /** The E2SM-KPM service model instance: its list of supported metric names. */
  class KpmServiceModel {
    const supportedMetrics: seq<string>

    /** The constructor fills the metric list, which is empty before and never changes after. */
    constructor ()
      ensures supportedMetrics == DefaultSupportedMetrics
    {
      supportedMetrics := DefaultSupportedMetrics;
    }

    /** A cell check that admits every cell. */
    function CellSupported(cellGlobalIdPresent: bool): (r: bool)
      ensures r
    {
      true
    }

    /** A UE check that admits every UE. */
    function UeSupported(ueId: nat): (r: bool)
      ensures r
    {
      true
    }

    /** A test-condition check that admits every condition. */
    function TestCondSupported(t: TestCondType): (r: bool)
      ensures r
    {
      true
    }

    /** Searches the supported-metric list from position `from` on for `name`. */
    function FindMetric(name: string, from: nat): (r: bool)
      requires from <= |supportedMetrics|
      ensures r <==> exists k :: from <= k < |supportedMetrics| && supportedMetrics[k] == name
      decreases |supportedMetrics| - from
    {
      if from == |supportedMetrics| then false
      else if supportedMetrics[from] == name then true
      else FindMetric(name, from + 1)
    }

    /**
     * Whether a metric is supported. Only its name is compared against the
     * supported list; label, level and cell scope are not looked at.
     */
    function MetricSupported(measName: string, measLabel: MeasLabel, level: MetricLevel, cellScope: bool): (r: bool)
      ensures r <==> measName in supportedMetrics
    {
      FindMetric(measName, 0)
    }

    /** The labels of one item are admitted: each is NO_LABEL on a supported metric; the first failure rejects. */
    function LabelsAdmitted(measName: string, labels: seq<MeasLabel>, level: MetricLevel, cellScope: bool): (r: bool)
      ensures r <==> forall l :: 0 <= l < |labels| ==> labels[l].noLabelPresent && measName in supportedMetrics
    {
      if labels == [] then true
      else if labels[0].noLabelPresent then
        MetricSupported(measName, labels[0], level, cellScope) && LabelsAdmitted(measName, labels[1..], level, cellScope)
      else false
    }

    /**
     * A measurement info list is admitted when every label of every item is
     * NO_LABEL on a supported metric. Items without labels are not checked,
     * so the empty list and label-less items are admitted.
     */
    function MeasInfoListAdmitted(list: seq<MeasInfoItem>, level: MetricLevel, cellScope: bool): (r: bool)
      ensures r <==> MeasInfoAcceptable(list, supportedMetrics)
    {
      if list == [] then true
      else
        MeasInfoAcceptableSplit(list, supportedMetrics);
        LabelsAdmitted(list[0].measName, list[0].labelInfoList, level, cellScope)
        && MeasInfoListAdmitted(list[1..], level, cellScope)
    }

    /** Format 1 at a given level: a non-zero granularity period, a supported cell when scoped, an admitted list. */
    function Format1Admitted(def: Format1, level: MetricLevel): (r: bool)
      ensures r <==> def.granulPeriod != 0 && MeasInfoAcceptable(def.measInfoList, supportedMetrics)
    {
      if def.granulPeriod == 0 then false
      else if def.cellGlobalIdPresent && !CellSupported(def.cellGlobalIdPresent) then false
      else MeasInfoListAdmitted(def.measInfoList, level, def.cellGlobalIdPresent)
    }

    /** The conditions of one format 3 item: a measurement-label condition needs a supported metric. */
    function MatchingCondsAdmitted(measName: string, conds: seq<MatchingCond>, cellScope: bool): (r: bool)
      ensures r <==> forall m :: 0 <= m < |conds| && conds[m].MeasLabelCond? ==> measName in supportedMetrics
    {
      if conds == [] then true
      else
        match conds[0]
        case TestCondInfo(t) => TestCondSupported(t) && MatchingCondsAdmitted(measName, conds[1..], cellScope)
        case MeasLabelCond(measLabel) =>
          MetricSupported(measName, measLabel, UeLevel, cellScope) && MatchingCondsAdmitted(measName, conds[1..], cellScope)
    }

    /** The measurement-condition list of format 3. */
    function MeasCondListAdmitted(list: seq<MeasCondItem>, cellScope: bool): (r: bool)
      ensures r <==> MeasCondAcceptable(list, supportedMetrics)
    {
      if list == [] then true
      else MatchingCondsAdmitted(list[0].measName, list[0].matchingCond, cellScope) && MeasCondListAdmitted(list[1..], cellScope)
    }

    /**
     * Format 3 is rejected only for a zero granularity period or for a
     * measurement-label condition on an unsupported metric.
     */
    function Format3Admitted(cellGlobalIdPresent: bool, granulPeriod: nat, measCondList: seq<MeasCondItem>): (r: bool)
      ensures r <==> granulPeriod != 0 && MeasCondAcceptable(measCondList, supportedMetrics)
    {
      if granulPeriod == 0 then false
      else if cellGlobalIdPresent && !CellSupported(cellGlobalIdPresent) then false
      else MeasCondListAdmitted(measCondList, cellGlobalIdPresent)
    }

    /** The UE-condition list of format 4: every test condition must be supported. */
    function UeCondsAdmitted(conds: seq<TestCondType>): (r: bool)
      ensures r
    {
      if conds == [] then true else TestCondSupported(conds[0]) && UeCondsAdmitted(conds[1..])
    }

    /** The UE list of format 5: every UE must be supported. */
    function UeIdsAdmitted(ueIds: seq<nat>): (r: bool)
      ensures r
    {
      if ueIds == [] then true else UeSupported(ueIds[0]) && UeIdsAdmitted(ueIds[1..])
    }

    /**
     * Whether an action definition is admitted. Styles 1 to 5 go to their
     * format's check; formats 2, 4 and 5 decide exactly as format 1 on the
     * subscription info they embed; any other style is not admitted.
     */
    function ActionSupported(def: ActionDefinition): (r: bool)
      requires FormatMatchesStyle(def)
      ensures !(1 <= def.ricStyleType <= 5) ==> !r
      ensures def.ricStyleType == 1 ==> (r <==> Format1Admitted(def.formats.format1, E2NodeLevel))
      ensures def.ricStyleType == 2 ==> (r <==> Format1Admitted(def.formats.subscriptInfo, E2NodeLevel))
      ensures def.ricStyleType == 4 ==> (r <==> Format1Admitted(def.formats.subscriptionInfo, E2NodeLevel))
      ensures def.ricStyleType == 5 ==> (r <==> Format1Admitted(def.formats.subscriptionInfo, E2NodeLevel))
      ensures def.ricStyleType == 3 ==>
                (r <==> Format3Admitted(def.formats.cellGlobalIdPresent, def.formats.granulPeriod, def.formats.measCondList))
    {
      match def.ricStyleType
      case 1 => Format1Admitted(def.formats.format1, E2NodeLevel)
      case 2 => UeSupported(def.formats.ueId) && Format1Admitted(def.formats.subscriptInfo, UeLevel)
      case 3 => Format3Admitted(def.formats.cellGlobalIdPresent, def.formats.granulPeriod, def.formats.measCondList)
      case 4 => UeCondsAdmitted(def.formats.matchingUeCondList) && Format1Admitted(def.formats.subscriptionInfo, UeLevel)
      case 5 => UeIdsAdmitted(def.formats.matchingUeIdList) && Format1Admitted(def.formats.subscriptionInfo, UeLevel)
      case _ => false
    }

    /**
     * The report service created for an action definition: one only for
     * styles 1 and 3, after the style is narrowed to 32 unsigned bits.
     */
    function GetReportService(def: ActionDefinition): (r: Option<ReportService>)
      ensures r.Some? <==> ToUint32(def.ricStyleType) == 1 || ToUint32(def.ricStyleType) == 3
      ensures ToUint32(def.ricStyleType) == 1 ==> r == Some(Style1Service(def))
      ensures ToUint32(def.ricStyleType) == 3 ==> r == Some(Style3Service(def))
      ensures 0 <= def.ricStyleType < Uint32Modulus ==> (r.Some? <==> def.ricStyleType == 1 || def.ricStyleType == 3)
    {
      match ToUint32(def.ricStyleType)
      case 1 => Some(Style1Service(def))
      case 2 => None
      case 3 => Some(Style3Service(def))
      case 4 => None
      case 5 => None
      case _ => None
    }
  }

  /**
   * The narrowing lets a style that is 1 only modulo 2^32 through: such an
   * action definition is not admitted, yet a style-1 report service is
   * built for it.
   */
  lemma WrappedStyleGetsService(kpm: KpmServiceModel, formats: ActionDefinitionFormat)
    ensures kpm.GetReportService(ActionDefinition(Uint32Modulus + 1, formats))
              == Some(Style1Service(ActionDefinition(Uint32Modulus + 1, formats)))
    ensures !kpm.ActionSupported(ActionDefinition(Uint32Modulus + 1, formats))
  {
  }

  /**
   * The supported test-condition types are never consulted when a
   * subscription is checked: GBR is not among them, yet the test-condition
   * check admits it, and a style-4 action is admitted exactly as its
   * subscription info is, whatever its UE conditions.
   */
  lemma UnsupportedTestCondsAdmitted(kpm: KpmServiceModel, conds: seq<TestCondType>, info: Format1)
    ensures !SupportedTestCondType(Gbr) && kpm.TestCondSupported(Gbr)
    ensures kpm.ActionSupported(ActionDefinition(4, F4(conds, info))) <==> kpm.Format1Admitted(info, UeLevel)
  {
  }

  /**
   * With the constructor's metric list, a measurement info list is admitted
   * exactly when every label is NO_LABEL and every item that has labels
   * names CQI, RSRP or RSRQ. An item without labels is admitted whatever
   * its name, since the name is only looked up once per label.
   */
  lemma ConstructedModelAdmitsOnlyKnownMetrics(kpm: KpmServiceModel, list: seq<MeasInfoItem>, level: MetricLevel, cellScope: bool)
    requires kpm.supportedMetrics == DefaultSupportedMetrics
    ensures kpm.MeasInfoListAdmitted(list, level, cellScope) <==>
              forall i :: 0 <= i < |list| ==>
                && (forall l :: 0 <= l < |list[i].labelInfoList| ==> list[i].labelInfoList[l].noLabelPresent)
                && (list[i].labelInfoList != [] ==> list[i].measName in {"CQI", "RSRP", "RSRQ"})
  {
    forall i | 0 <= i < |list|
      ensures ItemAcceptable(list[i], DefaultSupportedMetrics) <==>
                && (forall l :: 0 <= l < |list[i].labelInfoList| ==> list[i].labelInfoList[l].noLabelPresent)
                && (list[i].labelInfoList != [] ==> list[i].measName in {"CQI", "RSRP", "RSRQ"})
    {
      var n := list[i].measName;
      assert n in DefaultSupportedMetrics <==> n == "CQI" || n == "RSRP" || n == "RSRQ";
      if list[i].labelInfoList != [] {
        if ItemAcceptable(list[i], DefaultSupportedMetrics) {
          assert list[i].labelInfoList[0].noLabelPresent && n in DefaultSupportedMetrics;
        }
      }
    }
  }
}
