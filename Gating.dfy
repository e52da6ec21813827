/**
 * The gating rules of the display-filter form, proved about the rendered
 * controls: which fields each mode shows, in which order, and that the
 * rendering agrees with the visibility table for every mode string.
 */
module Gating {
  import opened DisplayFilter
  import opened VisibilityPolicy

  /** The field lists that the grids contribute, by layout order. */
  const LayerFields: seq<Field> := [Network, Transport, Application]
  const EndpointLayerFields: seq<Field> :=
    [Network, SrcIp, DstIp, Transport, Application, SrcPort, DstPort]
  const PeriodFields: seq<Field> := [PeriodStart, PeriodEnd]
  const OutputFields: seq<Field> := [Format, OutputFile]

  // ---------------------------------------------------------------------
  // What the component renders

  // The fields of each grid for one mode string of each kind; each is kept
  // to its own lemma so that its evaluation stays small.

  lemma PeriodGridFields()
    ensures Fields(PeriodGrid) == PeriodFields
  {
  }

  lemma FlowRateGridFields()
    ensures Fields(LayerGrid("flowRate")) == LayerFields
  {
  }

  /** With the inner gates open, the protocol grid's fields in source order. */
  lemma EndpointGridFields(mode: Mode)
    requires ShowsEndpointRows(mode)
    ensures Fields(LayerGrid(mode)) == EndpointLayerFields
  {
    var network := [Select(NetworkSelect)];
    var address := [TextInput(SrcIp), TextInput(DstIp)];
    var layers := [Select(TransportSelect), Select(ApplicationSelect)];
    var ports := [TextInput(SrcPort), TextInput(DstPort)];
    assert LayerGrid(mode) == network + address + layers + ports;
    FieldsAppend(network + address + layers, ports);
    FieldsAppend(network + address, layers);
    FieldsAppend(network, address);
    assert Fields(network) == [Network];
    assert Fields(address) == [SrcIp, DstIp];
    assert Fields(layers) == [Transport, Application];
    assert Fields(ports) == [SrcPort, DstPort];
  }

  lemma OutputGridFields()
    ensures Fields(OutputGrid("filter")) == OutputFields
  {
  }

  /** In flow-rate mode: the three protocol selectors, then the period pickers. */
  lemma FlowRateFields(mode: Mode)
    requires Classify(mode) == FlowRate
    ensures VisibleFields(mode) == LayerFields + PeriodFields
  {
    VisibleFieldsByGrid(mode);
    PeriodGridFields();
    FlowRateGridFields();
    assert LayerGrid(mode) == LayerGrid("flowRate");
    assert OutputGrid(mode) == [];
  }

  /** In packet-interval mode the address and port inputs join them. */
  lemma PacketIntervalFields(mode: Mode)
    requires Classify(mode) == PacketInterval
    ensures VisibleFields(mode) == EndpointLayerFields + PeriodFields
  {
    VisibleFieldsByGrid(mode);
    PeriodGridFields();
    EndpointGridFields(mode);
    assert OutputGrid(mode) == [];
  }

  /** In filter mode every field is rendered. */
  lemma FilterFields(mode: Mode)
    requires Classify(mode) == Filter
    ensures VisibleFields(mode) == AllFields
  {
    VisibleFieldsByGrid(mode);
    PeriodGridFields();
    EndpointGridFields(mode);
    OutputGridFields();
    assert OutputGrid(mode) == OutputGrid("filter");
  }

  /** In an unrecognised mode only the period pickers are rendered. */
  lemma UnrecognisedFields(mode: Mode)
    requires Classify(mode) == Unrecognised
    ensures VisibleFields(mode) == PeriodFields
  {
    VisibleFieldsByGrid(mode);
    PeriodGridFields();
    assert LayerGrid(mode) == [];
    assert OutputGrid(mode) == [];
  }

  /** The exact fields, in render order, for each of the four kinds of mode. */
  lemma VisibleFieldsByMode(mode: Mode)
    ensures Classify(mode) == FlowRate ==> VisibleFields(mode) == LayerFields + PeriodFields
    ensures Classify(mode) == PacketInterval ==>
              VisibleFields(mode) == EndpointLayerFields + PeriodFields
    ensures Classify(mode) == Filter ==> VisibleFields(mode) == AllFields
    ensures Classify(mode) == Unrecognised ==> VisibleFields(mode) == PeriodFields
  {
    match Classify(mode)
    case FlowRate => FlowRateFields(mode);
    case PacketInterval => PacketIntervalFields(mode);
    case Filter => FilterFields(mode);
    case Unrecognised => UnrecognisedFields(mode);
  }

  /** The keys, in render order, of the inputs a filter-mode form binds. */
  lemma FilterKeys(mode: Mode)
    requires Classify(mode) == Filter
    ensures VisibleKeys(mode) ==
      ["network", "src_ip", "dst_ip", "transport", "application", "src_port",
       "dst_port", "period_start", "period_end", "format", "output_file"]
  {
    FilterFields(mode);
  }

  /** The keys an unrecognised mode binds: the two period pickers'. */
  lemma UnrecognisedKeys(mode: Mode)
    requires Classify(mode) == Unrecognised
    ensures VisibleKeys(mode) == ["period_start", "period_end"]
  {
    UnrecognisedFields(mode);
  }

  /** A key is bound in a mode exactly when its field is rendered, and no key
      is bound twice. */
  lemma VisibleKeysMatchFields(mode: Mode, f: Field)
    ensures Key(f) in VisibleKeys(mode) <==> f in VisibleFields(mode)
    ensures Distinct(VisibleKeys(mode))
  {
    var fs := VisibleFields(mode);
    VisibleFieldsDistinct(mode);
    forall g | g in fs
      ensures Key(g) == Key(f) <==> g == f
    {
      KeyInjective(g, f);
    }
    forall i, j | 0 <= i < j < |fs|
      ensures VisibleKeys(mode)[i] != VisibleKeys(mode)[j]
    {
      KeyInjective(fs[i], fs[j]);
    }
    if Key(f) in VisibleKeys(mode) {
      var i :| 0 <= i < |fs| && VisibleKeys(mode)[i] == Key(f);
      KeyInjective(fs[i], f);
    }
    if f in fs {
      var i :| 0 <= i < |fs| && fs[i] == f;
      assert VisibleKeys(mode)[i] == Key(f);
    }
  }

  // ---------------------------------------------------------------------
  // What the table permits

  /** The table's permitted fields, taken grid by grid. */
  lemma PermittedByGrid(m: OperatingMode)
    ensures PermittedIn(AllFields, m) ==
      PermittedIn(EndpointLayerFields, m) + PermittedIn(PeriodFields, m)
      + PermittedIn(OutputFields, m)
  {
    assert AllFields == EndpointLayerFields + PeriodFields + OutputFields;
    PermittedInAppend(EndpointLayerFields + PeriodFields, OutputFields, m);
    PermittedInAppend(EndpointLayerFields, PeriodFields, m);
  }

  /** The table's verdicts on the protocol grid's fields. */
  lemma LayerPermitted()
    ensures PermittedIn(EndpointLayerFields, FlowRate) == LayerFields
    ensures PermittedIn(EndpointLayerFields, PacketInterval) == EndpointLayerFields
    ensures PermittedIn(EndpointLayerFields, Filter) == EndpointLayerFields
    ensures PermittedIn(EndpointLayerFields, Unrecognised) == []
  {
  }

  /** The table's verdicts on the period and output grids' fields. */
  lemma PeriodAndOutputPermitted()
    ensures forall m :: PermittedIn(PeriodFields, m) == PeriodFields
    ensures PermittedIn(OutputFields, FlowRate) == []
    ensures PermittedIn(OutputFields, PacketInterval) == []
    ensures PermittedIn(OutputFields, Filter) == OutputFields
    ensures PermittedIn(OutputFields, Unrecognised) == []
  {
  }

  /** The table's permitted fields, in layout order, for each kind of mode. */
  lemma PermittedByMode(m: OperatingMode)
    ensures m == FlowRate ==> PermittedIn(AllFields, m) == LayerFields + PeriodFields
    ensures m == PacketInterval ==>
              PermittedIn(AllFields, m) == EndpointLayerFields + PeriodFields
    ensures m == Filter ==> PermittedIn(AllFields, m) == AllFields
    ensures m == Unrecognised ==> PermittedIn(AllFields, m) == PeriodFields
  {
    PermittedByGrid(m);
    LayerPermitted();
    PeriodAndOutputPermitted();
  }

  // ---------------------------------------------------------------------
  // The gating rules

  /** The rendered fields are exactly the table's permitted fields, in layout order. */
  lemma RenderFollowsTable(mode: Mode)
    ensures VisibleFields(mode) == PermittedIn(AllFields, Classify(mode))
  {
    VisibleFieldsByMode(mode);
    PermittedByMode(Classify(mode));
  }

  /** A field is rendered if and only if the table shows its group in this mode. */
  lemma VisibleIffPermitted(mode: Mode, f: Field)
    ensures f in VisibleFields(mode) <==> Permitted(mode, f)
  {
    RenderFollowsTable(mode);
    PermittedInMembers(AllFields, Classify(mode), f);
    AllFieldsListsEachOnce(f);
  }

  /** No field is rendered twice, in any mode. */
  lemma VisibleFieldsDistinct(mode: Mode)
    ensures Distinct(VisibleFields(mode))
  {
    RenderFollowsTable(mode);
    AllFieldsListsEachOnce(Network);
    PermittedInDistinct(AllFields, Classify(mode));
  }

  /** The period pickers are rendered for every mode string. */
  lemma PeriodAlwaysVisible(mode: Mode)
    ensures PeriodStart in VisibleFields(mode) && PeriodEnd in VisibleFields(mode)
  {
    VisibleIffPermitted(mode, PeriodStart);
    VisibleIffPermitted(mode, PeriodEnd);
  }

  /** The network, transport and application selectors are rendered exactly
      in the three recognised modes. */
  lemma LayerFieldsVisibleIff(mode: Mode)
    ensures Network in VisibleFields(mode) <==>
              mode == "flowRate" || mode == "packetInterval" || mode == "filter"
    ensures Transport in VisibleFields(mode) <==>
              mode == "flowRate" || mode == "packetInterval" || mode == "filter"
    ensures Application in VisibleFields(mode) <==>
              mode == "flowRate" || mode == "packetInterval" || mode == "filter"
  {
    VisibleIffPermitted(mode, Network);
    VisibleIffPermitted(mode, Transport);
    VisibleIffPermitted(mode, Application);
  }

  /** The address and port inputs are rendered exactly in the packet-interval
      and filter modes. */
  lemma EndpointFieldsVisibleIff(mode: Mode)
    ensures SrcIp in VisibleFields(mode) <==> mode == "packetInterval" || mode == "filter"
    ensures DstIp in VisibleFields(mode) <==> mode == "packetInterval" || mode == "filter"
    ensures SrcPort in VisibleFields(mode) <==> mode == "packetInterval" || mode == "filter"
    ensures DstPort in VisibleFields(mode) <==> mode == "packetInterval" || mode == "filter"
  {
    VisibleIffPermitted(mode, SrcIp);
    VisibleIffPermitted(mode, DstIp);
    VisibleIffPermitted(mode, SrcPort);
    VisibleIffPermitted(mode, DstPort);
  }

  /** The format selector and the output-file input are rendered exactly in
      the filter mode. */
  lemma OutputFieldsVisibleIff(mode: Mode)
    ensures Format in VisibleFields(mode) <==> mode == "filter"
    ensures OutputFile in VisibleFields(mode) <==> mode == "filter"
  {
    VisibleIffPermitted(mode, Format);
    VisibleIffPermitted(mode, OutputFile);
  }

  /** The kind of mode decides every gate: the outer gate is open for the
      three recognised modes, the address and port gate for the two broadest,
      and the output gate for filter mode alone. */
  lemma ClassifyMatchesGates(mode: Mode)
    ensures Classify(mode) != Unrecognised <==> ShowsLayerRows(mode)
    ensures Breadth(Classify(mode)) >= 2 <==> ShowsEndpointRows(mode)
    ensures Classify(mode) == Filter <==> ShowsOutputRows(mode)
  {
  }

  /** Visibility only grows with the breadth of the mode: whatever an
      unrecognised mode shows, flow rate shows; whatever flow rate shows,
      packet interval shows; whatever packet interval shows, filter shows. */
  lemma VisibilityMonotone(a: Mode, b: Mode, f: Field)
    requires Breadth(Classify(a)) <= Breadth(Classify(b))
    ensures f in VisibleFields(a) ==> f in VisibleFields(b)
  {
    VisibleIffPermitted(a, f);
    VisibleIffPermitted(b, f);
    VisibleGroupsNested(Classify(a), Classify(b));
  }
}
