# Sungrow EyeM4 exporter: metric formatting and collection

A Dafny model of the core of the Sungrow EyeM4 Prometheus exporter (`src/index.js`):

- the exposition-format formatter (`formatMetricName`, `formatMetricLabels`, `formatMetric`);
- the assembly of one metrics document inside `getMetrics`' `connected` handler.

One session authenticates, then queries the device in a fixed order:

1. the state, which gives the alarm and fault totals;
2. the device list;
3. each device's realtime data, in list order;
4. the DC data of channel 1.

Each answer becomes metric fragments. A fragment is a `# TYPE` line plus a sample line. Realtime values, DC voltages and DC currents are kept only when they are numeric. The session then disconnects and joins the fragments with newlines.

Files:

- `text.dfy` (module `Text`): JavaScript's `join` and `split` on a one-character separator, with both round trips.
- `exposition.dfy` (module `Exposition`): the formatter. It also has a label-set reader (`ParseLabels`), the inverse that the label rendering is proved against.
- `collection.dfy` (module `Collection`): the session.
  - The answers to its queries are input data (`Answers`). A query that throws in the source is an `Err` answer.
  - `Fragments` and `Collect` are the pure specification.
  - `CollectMetrics` is the handler. It pushes lines inside nested loops (`PushDeviceLines`, `PushRealtimeLines`, `PushDcLines`), records the client calls it makes, and is proved equal to the specification.

Code the model does not define comes in as parameters:

- the `slug` library;
- JavaScript's `isNaN` on a telemetry value;
- the text a value gives in a template literal.

These three form the `Host` record. Nothing is assumed about them.

Behaviour of the code that the model keeps as written:

- **Failures inside the handler.** An exception thrown inside the async `connected` handler (`src/index.js:117-178`) does not reach `reject`. The handler's promise rejects, but no handler is attached to it, and the program installs no handler for unhandled rejections. What follows depends on the JavaScript runtime. Older Node.js versions only warn, and the timer then settles `getMetrics`. From Node.js 15 on, the default ends the process. The model's `Err` outcome means only that no document is produced.
- **No disconnect on failure.** `disconnect` is called only after every query has been answered (`src/index.js:173`). A session whose query fails never disconnects (`DisconnectOnlyWhenAllQueried`).
- **A throwing disconnect.** `disconnect` runs before `resolve` (`src/index.js:173-176`). If it throws, no document is produced. `Answers.disconnect` is its outcome.
- **State values are not checked.** They are exported without the numeric check (`src/index.js:126-127`).

## Model

| member | source | states |
|---|---|---|
| `Text.Join` | src/index.js:16-18 | `join` yields the parts with one separator between neighbours: the empty text for no parts, otherwise the total length of the parts plus one per gap, starting with the first part |
| `Text.JoinSplitRoundTrip` | src/index.js:176 | splitting a join of non-empty, separator-free parts gives back exactly those parts, in order |
| `Text.SplitJoinRoundTrip` | src/index.js:176 | joining the pieces of any text split on a separator gives back the text |
| `Exposition.FormatMetricName` | src/index.js:9-12 | the name is always `eyem4_` followed by the slug of the input; the prefix does not depend on the input |
| `Exposition.MetricNameInjective` | src/index.js:9-12 | two formatted names are equal exactly when the slugs of the inputs are equal |
| `Text.JoinSnoc` | src/index.js:16-18 | joining one more part appends the separator and then that part to the earlier join |
| `Exposition.FormatLabels` | src/index.js:14-22 | the label set starts with `{` and ends with `}`, and it is exactly `{}` if and only if the mapping is empty |
| `Exposition.FormatLabelsSnoc` | src/index.js:14-22 | for every mapping, adding one label renders it as `{key="value"}` when it is alone, and otherwise puts ` key="value"` after the earlier entries, before the closing brace; so the entries appear in insertion order whatever their text |
| `Exposition.LabelsRoundTrip` | src/index.js:14-22 | reading a rendered label set back gives the same labels in the same order, for labels with no space and no `=` in the name; so entries are rendered as `key="value"`, in insertion order, separated by single spaces |
| `Exposition.FormatMetric` | src/index.js:24-31 | the fragment of one metric; its contract is stated by `FormatMetricLines`: the `# TYPE` line and the sample line |
| `Exposition.FormatMetricLines` | src/index.js:24-31 | when no part (slug of the name, type, value, label names and values) holds a newline, a fragment is exactly two lines: `# TYPE ` + name + space + type, then the same name + labels + space + value |
| `Collection.CollectMetrics` | src/index.js:117-176 | the handler's outcome equals the specification `Collect`, and the calls it makes are `SessionCalls` |
| `Collection.PushDeviceLines` | src/index.js:130-146 | walking the device list gives the lines so far followed by each device's fragments in list order, or the cause of the first failing realtime query; it makes one realtime query per device up to that failure |
| `Collection.PushRealtimeLines` | src/index.js:133-145 | the inner loop appends exactly the fragments of the numeric items of one device, in item order |
| `Collection.PushDcLines` | src/index.js:150-170 | the DC loop appends, item by item, a voltage fragment when the voltage is numeric and then a current fragment when the current is numeric |
| `Collection.RealtimeFragmentsAppend` | src/index.js:133-145 | one more item adds one fragment at the end if its value is numeric, and nothing otherwise |
| `Collection.DcFragmentsAppend` | src/index.js:150-170 | one more DC item adds its voltage fragment and then its current fragment, each only when numeric, at the end |
| `Collection.DeviceFragmentsAppend` | src/index.js:131-146 | one more device adds its fragments after those of the earlier devices, unless an earlier realtime query or its own has failed |
| `Collection.DeviceFailureStops` | src/index.js:131-132 | the first failing realtime query decides the outcome, and no later device is queried |
| `Collection.DeviceFragmentsOk` | src/index.js:131-132 | the device loop completes exactly when every device's realtime query is answered |
| `Collection.RealtimeFragmentsCount` | src/index.js:133-145 | a device yields exactly as many fragments as it has numeric realtime items |
| `Collection.RealtimeFragmentsMembers` | src/index.js:133-145 | a text is one of a device's fragments if and only if it is the fragment of one of its items with a numeric value, labelled with ip and the six device fields |
| `Collection.DcFragmentsCount` | src/index.js:150-170 | the DC items yield exactly one fragment per numeric voltage plus one per numeric current |
| `Collection.DcFragmentsMembers` | src/index.js:150-170 | a text is a DC fragment if and only if it is the `_voltage` fragment of an item with a numeric voltage or the `_current` fragment of an item with a numeric current, each labelled `{ip, device_id: 1}` |
| `Collection.DeviceFragmentsCount` | src/index.js:130-146 | the device loop yields as many fragments as there are numeric realtime items over all devices |
| `Collection.FragmentCount` | src/index.js:122-170 | when every query is answered, the collection has 2 + numeric realtime items + numeric DC voltages + numeric DC currents fragments |
| `Collection.CollectSucceedsIff` | src/index.js:117-176 | the fragments are complete if and only if every query is answered, and a document is produced if and only if in addition `disconnect` does not throw; otherwise there is no document, partial or not |
| `Collection.DocumentBeginsWithState` | src/index.js:125-127 | the document begins with the `state_total_alarm` fragment, a newline and the `state_total_fault` fragment, both labelled only with `ip` and with no numeric check |
| `Collection.DeviceCallsAllAnswered` | src/index.js:131-132 | when every realtime query is answered, the device loop asks once per device, in list order |
| `Collection.DeviceCallsTrace` | src/index.js:131-132 | in the device loop only realtime queries are made, each one but the last is answered, and a failing loop ends with the query whose failure it reports |
| `Collection.SessionTrace` | src/index.js:117-176 | every call before the last is answered and none is a disconnect; the session ends with a `disconnect` that does not throw exactly when it produces a document, and a failed session ends with the call whose failure is its outcome |
| `Collection.DisconnectOnlyWhenAllQueried` | src/index.js:117-173 | the session calls `disconnect` if and only if every query was answered; a session whose query fails is left connected |
| `Collection.SessionCallsAllAnswered` | src/index.js:117-173 | a session whose queries are all answered calls authenticate, getState, getDeviceList, getDeviceRealtimeData once per device in list order, getDeviceDCData(1) and disconnect, in that order |
| `Collection.OnlyChannelOneQueried` | src/index.js:149 | what the device would answer for any DC channel other than 1 changes neither the document nor the calls |

## Left out

- The timeout race (`src/index.js:103-107`): timers and first-settlement-wins between two asynchronous outcomes are concurrency, not sequential logic.
- The event-driven client (`src/index.js:109-114`, `181`), the `error` event and `connect`: this is the external network library. Its query results are the `Answers` input. The `connected` event firing more than once is not modelled.
- The `try`/`catch` around the set-up (`src/index.js:100-185`): it covers the synchronous part of the set-up. That is the timer, constructing the client, registering the two event handlers and starting `client.connect()`. A throw from any of these rejects with its cause. These are all part of the timer and client machinery, which is left out above.
- `slug` (`src/index.js:10`): an external library whose behaviour is not visible. It is the `slug` parameter, about which nothing is assumed.
- JavaScript `isNaN` coercion and number-to-text conversion: these are floating-point and dynamic-typing semantics. Values are of an abstract type `V`, tested by the `isNaN` parameter and printed by the `show` parameter. Device-list fields are taken as the text they give in a label.
- Exposition.LabelsRoundTrip: the read-back is proved only for labels with no space anywhere and no `=` in the name. The text form does not quote-escape, so a value such as `Inverter 1` does not read back with the space-splitting reader. `FormatLabelsSnoc` states the order and the entry form for every mapping.
- Collection.CollectMetrics: the device's answers depend only on the call and its argument. Two devices with the same id get the same realtime answer, although a live device is asked twice and could answer differently.
- Label mappings are sequences of pairs in insertion order. JavaScript would list integer-like keys first, but every key the exporter uses is a fixed non-numeric name.
- The Express server, the HTTP 500 mapping, command-line parsing, usage text and command dispatch (`src/index.js:33-96`, `189-233`): these are I/O plumbing.
