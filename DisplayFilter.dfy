/**
 * The display-filter form: which inputs it renders for a given navigation
 * mode, the option values its selectors offer, and what each rendered input
 * forwards to the parent's handlers.
 *
 * The component keeps no state: its only input is the navigation mode string
 * (`mainNavState`), and everything here is a function of that string.
 */
module DisplayFilter {

  /** A navigation mode as the parent passes it: any string at all. */
  type Mode = string

  /** The export formats, in the order the output-format selector lists them. */
  const Formats: seq<string> :=
    ["pcap", "ek", "fields", "json", "jsonraw", "pdml", "ps", "psml", "tabs", "text"]

  /** One `<option>` of a selector: the value it submits and the text it shows. */
  datatype SelectOption = SelectOption(value: string, caption: string)

  /** The network-layer selector: a blank entry, then IPv4, IPv6, ICMP. */
  const NetworkOptions: seq<SelectOption> :=
    [SelectOption("", ""), SelectOption("ipv4", "IPv4"), SelectOption("ipv6", "IPv6"),
     SelectOption("icmp", "ICMP")]

  /** The transport-layer selector: a blank entry, then TCP, UDP. */
  const TransportOptions: seq<SelectOption> :=
    [SelectOption("", ""), SelectOption("tcp", "TCP"), SelectOption("udp", "UDP")]

  /** The application-layer selector: a blank entry, then HTTP, DNS, FTP, SSH. */
  const ApplicationOptions: seq<SelectOption> :=
    [SelectOption("", ""), SelectOption("http", "HTTP"), SelectOption("dns", "DNS"),
     SelectOption("ftp", "FTP"), SelectOption("ssh", "SSH")]

  /** The options the format selector builds by mapping over a list of formats:
      each format becomes an option whose value and caption are the format itself. */
  function FormatOptions(fs: seq<string>): seq<SelectOption> {
    if fs == [] then [] else [SelectOption(fs[0], fs[0])] + FormatOptions(fs[1..])
  }

  /** The values a list of options submits, in order. */
  function Values(opts: seq<SelectOption>): seq<string> {
    if opts == [] then [] else [opts[0].value] + Values(opts[1..])
  }

  /** The filter fields the form can report a change for. */
  datatype Field =
    | Network | SrcIp | DstIp | Transport | Application | SrcPort | DstPort
    | PeriodStart | PeriodEnd | Format | OutputFile

  /** The key string an input of this field binds to the parent's change handler. */
  function Key(f: Field): string {
    match f
    case Network => "network"
    case SrcIp => "src_ip"
    case DstIp => "dst_ip"
    case Transport => "transport"
    case Application => "application"
    case SrcPort => "src_port"
    case DstPort => "dst_port"
    case PeriodStart => "period_start"
    case PeriodEnd => "period_end"
    case Format => "format"
    case OutputFile => "output_file"
  }

  /** The four drop-down selectors of the form. */
  datatype Selector = NetworkSelect | TransportSelect | ApplicationSelect | FormatSelect

  /** The field whose key a selector binds. */
  function SelectedField(s: Selector): Field {
    match s
    case NetworkSelect => Network
    case TransportSelect => Transport
    case ApplicationSelect => Application
    case FormatSelect => Format
  }

  /** The options a selector offers, in order. */
  function Options(s: Selector): seq<SelectOption> {
    match s
    case NetworkSelect => NetworkOptions
    case TransportSelect => TransportOptions
    case ApplicationSelect => ApplicationOptions
    case FormatSelect => FormatOptions(Formats)
  }

  /** A rendered input. Each one except the submit button is bound to a fixed
      field, whose key it forwards to the parent's change handler. */
  datatype Control =
    | Select(selector: Selector)
    | TextInput(input: Field)
    | DateTimeInput(input: Field)
    | SubmitButton

  /** The field a control other than the submit button is bound to. */
  function FieldOf(c: Control): Field
    requires !c.SubmitButton?
  {
    if c.Select? then SelectedField(c.selector) else c.input
  }

  /** The outer gate: the network, transport and application rows (and the
      nested address and port rows) exist only in these three modes. */
  predicate ShowsLayerRows(mode: Mode) {
    mode == "flowRate" || mode == "packetInterval" || mode == "filter"
  }

  /** The gate on the address row and on the port row (the same condition,
      written twice in the component). It sits inside the outer gate. */
  predicate ShowsEndpointRows(mode: Mode) {
    mode == "packetInterval" || mode == "filter"
  }

  /** The gate on the output-format and output-file rows. */
  predicate ShowsOutputRows(mode: Mode) {
    mode == "filter"
  }

  /** The first grid: the protocol selectors, with the address and port rows
      nested inside it, all behind the outer gate. */
  function LayerGrid(mode: Mode): seq<Control> {
    if ShowsLayerRows(mode) then
      [Select(NetworkSelect)]
      + (if ShowsEndpointRows(mode) then [TextInput(SrcIp), TextInput(DstIp)] else [])
      + [Select(TransportSelect), Select(ApplicationSelect)]
      + (if ShowsEndpointRows(mode) then [TextInput(SrcPort), TextInput(DstPort)] else [])
    else []
  }

  /** The period grid, outside every gate: two date-time pickers. */
  const PeriodGrid: seq<Control> := [DateTimeInput(PeriodStart), DateTimeInput(PeriodEnd)]

  /** The output grid: the format selector and the output-file name. */
  function OutputGrid(mode: Mode): seq<Control> {
    if ShowsOutputRows(mode)
    then [Select(FormatSelect), TextInput(OutputFile)]
    else []
  }

  /** The last grid, outside every gate: the submit button. */
  const SubmitGrid: seq<Control> := [SubmitButton]

  /** The inputs the component renders for `mode`, top to bottom. */
  function Render(mode: Mode): seq<Control> {
    LayerGrid(mode) + PeriodGrid + OutputGrid(mode) + SubmitGrid
  }

  /** The fields bound by a list of controls, in order. */
  function Fields(cs: seq<Control>): seq<Field> {
    if cs == [] then []
    else if cs[0].SubmitButton? then Fields(cs[1..])
    else [FieldOf(cs[0])] + Fields(cs[1..])
  }

  /** The fields of the inputs rendered for `mode`, in render order. */
  function VisibleFields(mode: Mode): seq<Field> {
    Fields(Render(mode))
  }

  /** The keys the inputs rendered for `mode` bind, in render order. */
  function VisibleKeys(mode: Mode): seq<string> {
    var fs := VisibleFields(mode);
    seq(|fs|, i requires 0 <= i < |fs| => Key(fs[i]))
  }

  /** What the parent receives when the user acts on a control: a change
      carrying the control's own key and the widget's event, or a submit. */
  datatype Callback = OnChange(key: string, event: string) | OnSubmit(event: string)

  /** The call a control makes on the parent when it fires `event`. */
  function Interact(c: Control, event: string): (r: Callback)
    ensures r.OnSubmit? <==> c == SubmitButton
    ensures r.OnChange? ==> r.key == Key(FieldOf(c))
    ensures r.event == event
  {
    match c
    case SubmitButton => OnSubmit(event)
    case _ => OnChange(Key(FieldOf(c)), event)
  }

  /** No value occurs twice in `s`. */
  predicate Distinct<T(==)>(s: seq<T>) {
    forall i, j :: 0 <= i < j < |s| ==> s[i] != s[j]
  }

  /** Different fields send different keys, so the parent can tell them apart. */
  lemma KeyInjective(f: Field, g: Field)
    ensures Key(f) == Key(g) <==> f == g
  {
  }

  // ---------------------------------------------------------------------
  // Fields of a control list

  lemma {:induction false} FieldsAppend(a: seq<Control>, b: seq<Control>)
    ensures Fields(a + b) == Fields(a) + Fields(b)
  {
    if a == [] {
      assert a + b == b;
    } else {
      assert (a + b)[1..] == a[1..] + b;
      FieldsAppend(a[1..], b);
    }
  }

  /** The fields of a rendering are those of its grids, in order. */
  lemma VisibleFieldsByGrid(mode: Mode)
    ensures VisibleFields(mode) == Fields(LayerGrid(mode)) + Fields(PeriodGrid) + Fields(OutputGrid(mode))
  {
    FieldsAppend(LayerGrid(mode) + PeriodGrid + OutputGrid(mode), SubmitGrid);
    FieldsAppend(LayerGrid(mode) + PeriodGrid, OutputGrid(mode));
    FieldsAppend(LayerGrid(mode), PeriodGrid);
  }

  /** Every non-submit control contributes its field. */
  lemma {:induction false} FieldsSound(cs: seq<Control>, i: nat)
    requires i < |cs| && !cs[i].SubmitButton?
    ensures FieldOf(cs[i]) in Fields(cs)
  {
    if i > 0 {
      FieldsSound(cs[1..], i - 1);
    }
  }

  /** Every field comes from some non-submit control. */
  lemma {:induction false} FieldsComplete(cs: seq<Control>, f: Field)
    requires f in Fields(cs)
    ensures exists i :: 0 <= i < |cs| && !cs[i].SubmitButton? && FieldOf(cs[i]) == f
  {
    if cs[0].SubmitButton? || f != FieldOf(cs[0]) {
      FieldsComplete(cs[1..], f);
      var i :| 0 <= i < |cs[1..]| && !cs[1..][i].SubmitButton? && FieldOf(cs[1..][i]) == f;
      assert cs[i + 1] == cs[1..][i];
    } else {
      assert !cs[0].SubmitButton? && FieldOf(cs[0]) == f;
    }
  }

  // ---------------------------------------------------------------------
  // Fixed option lists

  /** There are exactly ten export formats, all different and none blank,
      `pcap` first. */
  lemma FormatsShape()
    ensures |Formats| == 10 && Formats[0] == "pcap" && Distinct(Formats) && "" !in Formats
  {
  }

  /** Mapping formats to options and reading the options' values back gives
      the formats again; every such option is captioned with its own value. */
  lemma {:induction false} FormatOptionsValues(fs: seq<string>)
    ensures Values(FormatOptions(fs)) == fs
    ensures forall o :: o in FormatOptions(fs) ==> o.caption == o.value
  {
    if fs != [] {
      FormatOptionsValues(fs[1..]);
    }
  }

  /** The three protocol selectors each begin with a blank value, offer
      exactly the listed values, and repeat none. */
  lemma ProtocolSelectorValues()
    ensures Values(Options(NetworkSelect)) == ["", "ipv4", "ipv6", "icmp"]
    ensures Values(Options(TransportSelect)) == ["", "tcp", "udp"]
    ensures Values(Options(ApplicationSelect)) == ["", "http", "dns", "ftp", "ssh"]
    ensures Distinct(Values(Options(NetworkSelect)))
    ensures Distinct(Values(Options(TransportSelect)))
    ensures Distinct(Values(Options(ApplicationSelect)))
  {
  }

  /** The format selector offers exactly the export formats, in order (so,
      by `FormatsShape`, ten values, none blank and none twice). */
  lemma FormatSelectorValues()
    ensures Values(Options(FormatSelect)) == Formats
  {
    FormatOptionsValues(Formats);
  }

  /** Each format option is captioned with its own value. */
  lemma FormatSelectorCaptions()
    ensures forall o :: o in Options(FormatSelect) ==> o.caption == o.value
  {
    FormatOptionsValues(Formats);
  }

  // ---------------------------------------------------------------------
  // The submit control and the bound callbacks

  /** Every mode renders exactly one submit button, as the last control. */
  lemma SubmitAlwaysLast(mode: Mode)
    ensures |Render(mode)| > 0 && Render(mode)[|Render(mode)| - 1] == SubmitButton
    ensures forall i :: 0 <= i < |Render(mode)| - 1 ==> Render(mode)[i] != SubmitButton
  {
  }

  /** Acting on a rendered control either calls the change handler with the
      key of a visible field, or is the submit button calling the submit handler. */
  lemma CallbacksUseVisibleKeys(mode: Mode, i: nat, event: string)
    requires i < |Render(mode)|
    ensures Interact(Render(mode)[i], event) == OnSubmit(event) <==> i == |Render(mode)| - 1
    ensures Interact(Render(mode)[i], event).OnChange? ==>
              exists f :: f in VisibleFields(mode) && Interact(Render(mode)[i], event).key == Key(f)
  {
    SubmitAlwaysLast(mode);
    if !Render(mode)[i].SubmitButton? {
      FieldsSound(Render(mode), i);
    }
  }

  /** Every visible field is bound to some rendered control, which forwards
      its key with the event to the change handler. */
  lemma VisibleFieldsReachHandler(mode: Mode, f: Field, event: string)
    requires f in VisibleFields(mode)
    ensures exists i :: 0 <= i < |Render(mode)| && Interact(Render(mode)[i], event) == OnChange(Key(f), event)
  {
    FieldsComplete(Render(mode), f);
    var i :| 0 <= i < |Render(mode)| && !Render(mode)[i].SubmitButton? && FieldOf(Render(mode)[i]) == f;
    assert Interact(Render(mode)[i], event) == OnChange(Key(f), event);
  }
}
