# SNS to Microsoft Teams forwarder, modelled in Dafny

The system is an AWS Lambda handler. It receives a batch of SNS event
records and keeps those that carry an `Sns` sub-record. From each one it
builds a notification: `MessageId`, `TopicArn` and `Subject` are copied, and
`Message` is JSON-parsed, or `null` when it is absent or empty. Each
notification is rendered as an HTML table with `tableify`. All tables go to a
Microsoft Teams webhook in a single POST whose body is `{text: ...}`. If no
record carries `Sns`, the event is rejected with a fixed message and no
request is made.

The model has three modules:

- `Wrappers` (wrappers.dfy): `Option` for absent fields, and `Result` for
  operations that can throw.
- `SnsFormat` (sns_format.dfy): `parseSnsRecord`, the `Sns` filter,
  `formatAsHtmlTables`, and the properties of those.
- `TeamsForwarder` (teams_forwarder.dfy): the comma join that
  `Array.prototype.toString` performs, `sendToMicrosoftTeams` and the
  handler.

The handler's effects are returned as an `Invocation` value. It holds the
HTTP requests issued, in order, and one `Completion`. A completion is either
the single callback call with its error and result, or an exception that
escapes the handler.

Several things are parameters rather than fixed code:

- `JSON.parse` is a function `parse: string -> Result<Json, string>`.
- `tableify` is a function `render: Notification -> string`.
- The HTTP client is `transport: PostRequest -> Response`. It reports a
  transport error and a status code, each possibly absent.
- The webhook URL, which the source reads from `TEAMS_WEB_HOOK_URL`, is the
  parameter `url`.

Every property below holds for every parser, renderer, transport and URL.

A non-200 status is not reported as a failure. The callback always receives
the request library's `error` together with `'done'`, and the status code
only selects the log level (index.js:27-33). `StatusCodeOnlyLogged` states
this.

## Model

| member | source | states |
|---|---|---|
| `SnsFormat.ParseSnsRecord` | index.js:4-9 | `MessageId`, `TopicArn` and `Subject` are copied unchanged. `Message` is `Null` when the field is absent or `""`. Otherwise the record holds the parsed value, or the call fails with the parser's error. |
| `SnsFormat.WithSns` | index.js:11-13 | The `Sns` filter never yields more sub-records than there are input records. |
| `SnsFormat.WithSnsPositions` | index.js:11-13 | The filter keeps exactly the records that carry `Sns`, in their original order. Strictly increasing positions pick out the record behind each kept sub-record, and every record with `Sns` has a position. |
| `SnsFormat.WithSnsAppend` | index.js:12 | Filtering the concatenation of two batches gives the concatenation of the filtered batches, so relative order is preserved. |
| `SnsFormat.ParseAll` | index.js:13 | The `.map(parseSnsRecord)` step succeeds iff every sub-record parses. On success the k-th notification is the parse of the k-th sub-record. On failure the error belongs to the first sub-record that fails, and every earlier one parses. |
| `SnsFormat.RenderAll` | index.js:14 | `.map(tableify)` calls the renderer once per notification, in order. |
| `SnsFormat.FormatAsHtmlTables` | index.js:11-14 | Formatting succeeds iff every kept sub-record parses. There is then one table per kept sub-record: the rendering of its parsed notification. |
| `SnsFormat.FormattedPerSnsRecordInOrder` | index.js:11-14 | A successful batch yields exactly one table per record that carries `Sns`, in input order. The k-th table renders the record at the k-th such position. |
| `SnsFormat.RecordWithoutSnsIgnored` | index.js:12 | Adding a record without `Sns` anywhere in a batch never changes the outcome, and never causes an error. |
| `SnsFormat.NoSnsFiltersToEmpty` | index.js:12 | A batch in which no record carries `Sns` filters down to the empty list. |
| `SnsFormat.EmptyIffNoSnsRecords` | index.js:11-14 | Formatting yields an empty list exactly when no record carries `Sns`. |
| `SnsFormat.MalformedMessageAbortsBatch` | index.js:8-13 | One record with a non-empty message that does not parse makes the whole batch fail, and no partial list is produced. |
| `SnsFormat.FailureIsFirstMalformed` | index.js:8-13 | A failed batch contains a malformed record. The error is the parse error of the first malformed record, and no earlier record is malformed. |
| `TeamsForwarder.JoinAt` | index.js:22 | Each rendered table appears unchanged, in order, at its offset in the posted text. Every table except the last is followed by a comma. |
| `TeamsForwarder.JoinLength` | index.js:22 | The posted text has no characters besides the tables and the commas between them. An empty list joins to `""`. |
| `TeamsForwarder.SendToMicrosoftTeams` | index.js:16-34 | Exactly one POST goes to the configured URL with body `{text: join(tables, ",")}`. The callback receives the request's error and `'done'`. |
| `TeamsForwarder.Handler` | index.js:43-63 | The handler issues at most one request. The callback receives `'done'` exactly when a request was issued, and its error is then the transport's error. |
| `TeamsForwarder.MissingRecordsLikeEmpty` | index.js:47 | An event without `Records` is handled exactly like one with an empty list. Both are rejected with the fixed message and issue no request. |
| `TeamsForwarder.RejectedIffNoSnsRecords` | index.js:53-59 | The callback gets `'Ignoring event because it does not contain any SNS records'` exactly when no record carries `Sns`. In that case no request is issued. |
| `TeamsForwarder.ThrowsIffMalformedMessage` | index.js:51 | The handler throws exactly when a record carrying `Sns` has a message that does not parse. The exception is the parse error of the first such record, and no request is issued. |
| `TeamsForwarder.PostsJoinedTables` | index.js:61-62 | When formatting yields a non-empty list of tables, the handler makes one POST of those tables joined with commas to the URL, then calls the callback with the request's error and `'done'`. |
| `TeamsForwarder.StatusCodeOnlyLogged` | index.js:27-33 | The HTTP status code never reaches the callback. Two transports that report the same errors lead to the same invocation. |

## Left out

- The `request` HTTP client and the network: the transport is a function parameter, and timeouts and retries are not modelled.
- The internals of `tableify`: the renderer is a function parameter, and its HTML is not visible.
- The internals of `JSON.parse`: the parser is a function parameter. JSON numbers are integers in the `Json` datatype, so floating point is left out.
- Reading `process.env.TEAMS_WEB_HOOK_URL`: the URL is a parameter, and an unset variable (`undefined`) is not modelled.
- All `console.log` diagnostics, including the INFO/ERROR choice made from the status code.
- The callback style and the Lambda `context` object: a completion is a single returned value.
- Dynamic JavaScript values: an `Sns` that is truthy but not an object, sub-record fields that are not strings, a record that is itself `null`, and a `Records` value that is truthy but not an array are not modelled. Fields are a string or absent.
- Undoing the comma join: rendered HTML may itself contain commas, so the posted text is not claimed to determine the tables.
- `tableify` or the transport throwing: both are treated as total.
