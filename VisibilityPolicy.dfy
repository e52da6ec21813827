/**
 * The mode-to-field-group visibility table, stated independently of the
 * rendering.
 */
module VisibilityPolicy {
  import opened DisplayFilter

  /** The recognised navigation modes, and everything else. */
  datatype OperatingMode = FlowRate | PacketInterval | Filter | Unrecognised

  /** Reads a mode string; any string other than the three names is unrecognised. */
  function Classify(mode: Mode): (m: OperatingMode)
    ensures m == FlowRate <==> mode == "flowRate"
    ensures m == PacketInterval <==> mode == "packetInterval"
    ensures m == Filter <==> mode == "filter"
  {
    if mode == "flowRate" then FlowRate
    else if mode == "packetInterval" then PacketInterval
    else if mode == "filter" then Filter
    else Unrecognised
  }

  /** Logical clusters of filter inputs that are shown or hidden together. */
  datatype FieldGroup =
    | NetworkLayer | AddressPair | TransportLayer | ApplicationLayer
    | PortPair | TimeRange | OutputOptions

  /** Every field, in the order the form lays the inputs out. */
  const AllFields: seq<Field> :=
    [Network, SrcIp, DstIp, Transport, Application, SrcPort, DstPort,
     PeriodStart, PeriodEnd, Format, OutputFile]

  /** The group a field belongs to. */
  function GroupOf(f: Field): FieldGroup {
    match f
    case Network => NetworkLayer
    case SrcIp | DstIp => AddressPair
    case Transport => TransportLayer
    case Application => ApplicationLayer
    case SrcPort | DstPort => PortPair
    case PeriodStart | PeriodEnd => TimeRange
    case Format | OutputFile => OutputOptions
  }

  /** The visibility table: which groups each mode shows. */
  function VisibleGroups(m: OperatingMode): set<FieldGroup> {
    match m
    case FlowRate => {NetworkLayer, TransportLayer, ApplicationLayer, TimeRange}
    case PacketInterval =>
      {NetworkLayer, AddressPair, TransportLayer, ApplicationLayer, PortPair, TimeRange}
    case Filter =>
      {NetworkLayer, AddressPair, TransportLayer, ApplicationLayer, PortPair, TimeRange,
       OutputOptions}
    case Unrecognised => {TimeRange}
  }

  /** The table's verdict on one field under a mode string. */
  predicate Permitted(mode: Mode, f: Field) {
    GroupOf(f) in VisibleGroups(Classify(mode))
  }

  /** The fields among `fs` whose groups the table shows in `m`, keeping their order. */
  function PermittedIn(fs: seq<Field>, m: OperatingMode): seq<Field> {
    if fs == [] then []
    else if GroupOf(fs[0]) in VisibleGroups(m) then [fs[0]] + PermittedIn(fs[1..], m)
    else PermittedIn(fs[1..], m)
  }

  /** The layout lists every field exactly once. */
  lemma AllFieldsListsEachOnce(f: Field)
    ensures f in AllFields && Distinct(AllFields)
  {
  }

  /** How much of the form a kind of mode shows, from least to most. */
  function Breadth(m: OperatingMode): nat {
    match m
    case Unrecognised => 0
    case FlowRate => 1
    case PacketInterval => 2
    case Filter => 3
  }

  /** The table only grows with breadth: from an unrecognised mode through flow
      rate and packet interval to filter, which shows every group; the time
      range is shown in every mode. */
  lemma VisibleGroupsNested(a: OperatingMode, b: OperatingMode)
    ensures Breadth(a) <= Breadth(b) ==> VisibleGroups(a) <= VisibleGroups(b)
    ensures TimeRange in VisibleGroups(a)
    ensures forall g :: g in VisibleGroups(Filter)
  {
    forall g ensures g in VisibleGroups(Filter) {
      match g
      case NetworkLayer => case AddressPair => case TransportLayer =>
      case ApplicationLayer => case PortPair => case TimeRange => case OutputOptions =>
    }
  }

  /** Filtering a concatenation filters each part. */
  lemma {:induction false} PermittedInAppend(a: seq<Field>, b: seq<Field>, m: OperatingMode)
    ensures PermittedIn(a + b, m) == PermittedIn(a, m) + PermittedIn(b, m)
  {
    if a == [] {
      assert a + b == b;
    } else {
      assert (a + b)[1..] == a[1..] + b;
      PermittedInAppend(a[1..], b, m);
    }
  }

  /** `PermittedIn` keeps exactly the members of its input that the table shows. */
  lemma {:induction false} PermittedInMembers(fs: seq<Field>, m: OperatingMode, f: Field)
    ensures f in PermittedIn(fs, m) <==> f in fs && GroupOf(f) in VisibleGroups(m)
  {
    if fs != [] {
      PermittedInMembers(fs[1..], m, f);
    }
  }

  /** Filtering a list without repetitions gives a list without repetitions. */
  lemma {:induction false} PermittedInDistinct(fs: seq<Field>, m: OperatingMode)
    requires Distinct(fs)
    ensures Distinct(PermittedIn(fs, m))
  {
    if fs != [] {
      PermittedInDistinct(fs[1..], m);
      if GroupOf(fs[0]) in VisibleGroups(m) {
        var rest := PermittedIn(fs[1..], m);
        forall j | 0 <= j < |rest| ensures rest[j] != fs[0] {
          PermittedInMembers(fs[1..], m, rest[j]);
          var i :| 0 <= i < |fs[1..]| && fs[1..][i] == rest[j];
          assert fs[i + 1] == rest[j];
        }
        assert PermittedIn(fs, m) == [fs[0]] + rest;
      }
    }
  }
}
