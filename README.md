# Display-filter form: a Dafny model of its field-visibility rules

The display-filter form lets a user build a packet-capture query. The
`DisplayFilter` component receives a navigation mode string (`mainNavState`)
and two handlers from its parent. It renders a set of inputs that depends on
the mode. Each input is bound to one fixed field key and forwards that key,
with the widget's event, to the parent's `onChange`. The submit button passes
its click to `onSubmit`. The component stores nothing and validates nothing.

The model has three modules:

- `DisplayFilter` (`DisplayFilter.dfy`) models the component itself: the
  export `Formats`, the option lists of the four selectors, the closed set of
  `Field`s with the `Key` string each binds, the three gates as predicates on
  the mode string, `Render(mode)` as the ordered list of rendered controls
  (four grids, as in the component), `VisibleFields(mode)` as the fields those
  controls bind, `VisibleKeys(mode)` as the keys they bind, and `Interact`
  as the call a control makes on the parent.
- `VisibilityPolicy` (`VisibilityPolicy.dfy`) is an independent reference: the
  intended mode-to-field-group table from the kind of mode (`FlowRate`, `PacketInterval`,
  `Filter`, or unrecognised) to the field groups it shows, and
  `PermittedIn(AllFields, m)`, the permitted fields in layout order.
- `Gating` (`Gating.dfy`) proves that the rendering follows the table for
  every mode string, and states the gating rules one by one.

Everything is a total function of the mode string, including unrecognised
strings such as the empty one.

## Model

| member | source | states |
|---|---|---|
| `DisplayFilter.FormatsShape` | client/src/javascripts/components/DisplayFilter.js:5-16 | there are exactly ten export formats, `pcap` first, all distinct and none blank |
| `DisplayFilter.FormatOptionsValues` | client/src/javascripts/components/DisplayFilter.js:168-170 | mapping any list of formats to options and reading the values back gives the list again, and every option is captioned with its own value |
| `DisplayFilter.FormatSelectorValues` | client/src/javascripts/components/DisplayFilter.js:163-171 | the format selector offers exactly the export formats in order, with no blank entry |
| `DisplayFilter.FormatSelectorCaptions` | client/src/javascripts/components/DisplayFilter.js:168-170 | every format option shows its own value as its text |
| `DisplayFilter.ProtocolSelectorValues` | client/src/javascripts/components/DisplayFilter.js:31-103 | the network (`"", ipv4, ipv6, icmp`), transport (`"", tcp, udp`) and application (`"", http, dns, ftp, ssh`) selectors offer exactly these values, each beginning with a blank value and repeating none |
| `DisplayFilter.KeyInjective` | client/src/javascripts/components/DisplayFilter.js:34-183 | two inputs send the same key to `onChange` only if they are bound to the same field |
| `DisplayFilter.VisibleFieldsByGrid` | client/src/javascripts/components/DisplayFilter.js:21-205 | the visible fields are those of the protocol grid, then the period grid, then the output grid; the submit grid binds no field |
| `DisplayFilter.FieldsAppend` | client/src/javascripts/components/DisplayFilter.js:21-205 | the fields bound by consecutive groups of controls are those of each group, in order |
| `DisplayFilter.SubmitAlwaysLast` | client/src/javascripts/components/DisplayFilter.js:190-204 | every mode renders exactly one submit button, and it is the last control |
| `DisplayFilter.CallbacksUseVisibleKeys` | client/src/javascripts/components/DisplayFilter.js:32-198 | acting on any rendered control either calls `onChange` with the key of a visible field, or is the last control calling `onSubmit` |
| `DisplayFilter.VisibleFieldsReachHandler` | client/src/javascripts/components/DisplayFilter.js:32-183 | every visible field has a rendered control that forwards its key and the event to `onChange` |
| `VisibilityPolicy.VisibleGroupsNested` | client/src/javascripts/components/DisplayFilter.js:22-189 | the groups shown only grow from an unrecognised mode through flow rate and packet interval to filter, which shows all seven groups; the time range is shown in every mode |
| `VisibilityPolicy.PermittedInMembers` | client/src/javascripts/components/DisplayFilter.js:22-189 | the table's filter keeps a field exactly when it is in the input and its group is shown |
| `VisibilityPolicy.PermittedInDistinct` | client/src/javascripts/components/DisplayFilter.js:34-183 | filtering a list without repeated fields yields a list without repeated fields |
| `Gating.FlowRateFields` | client/src/javascripts/components/DisplayFilter.js:22-155 | in flow-rate mode the form renders `network`, `transport`, `application`, `period_start`, `period_end`, in that order |
| `Gating.PacketIntervalFields` | client/src/javascripts/components/DisplayFilter.js:22-155 | in packet-interval mode it adds `src_ip`, `dst_ip` after `network` and `src_port`, `dst_port` after `application` |
| `Gating.FilterFields` | client/src/javascripts/components/DisplayFilter.js:22-189 | in filter mode it renders all eleven fields in layout order |
| `Gating.UnrecognisedFields` | client/src/javascripts/components/DisplayFilter.js:136-155 | any other mode string renders exactly `period_start`, `period_end` |
| `Gating.VisibleFieldsByMode` | client/src/javascripts/components/DisplayFilter.js:22-189 | the exact ordered field list for each of the four kinds of mode |
| `Gating.PermittedByMode` | client/src/javascripts/components/DisplayFilter.js:22-189 | the table's permitted fields, in layout order, for each kind of mode |
| `Gating.RenderFollowsTable` | client/src/javascripts/components/DisplayFilter.js:22-189 | for every mode string, the rendered fields are exactly the fields the table permits, in layout order |
| `Gating.VisibleIffPermitted` | client/src/javascripts/components/DisplayFilter.js:22-189 | a field is rendered if and only if the table shows its group for the mode |
| `Gating.VisibleFieldsDistinct` | client/src/javascripts/components/DisplayFilter.js:34-183 | no field is rendered twice in any mode |
| `Gating.PeriodAlwaysVisible` | client/src/javascripts/components/DisplayFilter.js:136-155 | `period_start` and `period_end` are rendered for every mode string |
| `Gating.LayerFieldsVisibleIff` | client/src/javascripts/components/DisplayFilter.js:22-106 | `network`, `transport` and `application` are rendered if and only if the mode is `flowRate`, `packetInterval` or `filter` |
| `Gating.EndpointFieldsVisibleIff` | client/src/javascripts/components/DisplayFilter.js:22-133 | `src_ip`, `dst_ip`, `src_port` and `dst_port` are rendered if and only if the mode is `packetInterval` or `filter` (the inner gate inside the outer one) |
| `Gating.OutputFieldsVisibleIff` | client/src/javascripts/components/DisplayFilter.js:156-189 | `format` and `output_file` are rendered if and only if the mode is exactly `filter` |
| `Gating.ClassifyMatchesGates` | client/src/javascripts/components/DisplayFilter.js:22-156 | the outer gate is open exactly for the three recognised modes; the address and port gate (DisplayFilter.js:44-45, 107-108) exactly for the two modes of breadth at least two; the output gate (DisplayFilter.js:156) exactly for filter mode |
| `Gating.FilterKeys` | client/src/javascripts/components/DisplayFilter.js:34-183 | in filter mode the keys bound, in render order, are `network`, `src_ip`, `dst_ip`, `transport`, `application`, `src_port`, `dst_port`, `period_start`, `period_end`, `format`, `output_file` |
| `Gating.UnrecognisedKeys` | client/src/javascripts/components/DisplayFilter.js:136-155 | any other mode string, the empty one included, binds exactly `period_start` and `period_end` |
| `Gating.VisibleKeysMatchFields` | client/src/javascripts/components/DisplayFilter.js:34-183 | a key is bound in a mode if and only if its field is rendered there, and no key is bound twice |
| `Gating.VisibilityMonotone` | client/src/javascripts/components/DisplayFilter.js:22-189 | whatever a mode shows, every mode of greater breadth (unrecognised < flowRate < packetInterval < filter) shows as well |

## Left out

- React and react-bootstrap rendering, the grid, row and column layout, CSS class names, `controlId`s and the Japanese row labels: presentation only. The model keeps the order of the inputs and the option values and captions.
- The date-time widget and the values it produces: it is a foreign library. Every control's event payload is an opaque `string` that the model only passes through.
- The parent's `onChange` and `onSubmit` handlers, the state they may keep and the backend query behind them: they are not part of this component.
- A stateful filter builder (last write wins per key, rejecting a format outside the list, ignoring writes to hidden fields): the component implements none of it. It stores no values and never checks the `format` value. What the component does guarantee is modelled instead: `CallbacksUseVisibleKeys` shows that `onChange` can only ever receive the key of a field rendered in the current mode, so a hidden field is never written through this form.
- Handler and mode props of the wrong type: the model assumes `onChange` and `onSubmit` are functions and `mainNavState` is a string, because nothing in the component checks them. If `onChange` is missing, rendering throws a TypeError in every mode, since the period pickers' `.bind` calls (DisplayFilter.js:144, 151) sit outside every gate. If `onSubmit` is missing, the button's click (DisplayFilter.js:198) calls nothing, while the model's `Interact` always yields `OnSubmit`. A missing `mainNavState` fails all three comparisons and renders like an unrecognised string, which `UnrecognisedFields` covers.
- IP address and port syntax: the text inputs pass raw input through unchecked.
- What the browser does when no option has been picked yet (the format selector shows `pcap` selected without firing a change event): browser behaviour, not the component's.
