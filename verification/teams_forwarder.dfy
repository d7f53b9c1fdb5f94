/**
 * The Lambda handler and the webhook call (index.js:16-63). The handler's
 * effects are returned as a value: the HTTP requests it issued and the one
 * way it completed. The webhook URL, read by the source from the process
 * environment, is a parameter, and so is the HTTP transport, which maps the
 * request to the error and status code the `request` library reports.
 */
module TeamsForwarder {
  import opened Wrappers
  import opened SnsFormat

  /** The error passed to the callback when no record carries `Sns`. */
  const EmptyBatchError := "Ignoring event because it does not contain any SNS records"

  /** The result passed to the callback once the webhook call has completed. */
  const DoneResult := "done"

  /** The Lambda event; `records` is `None` when the event has no `Records`. */
  datatype Event = Event(records: Option<seq<EventRecord>>)

  /** An outgoing HTTP request: target URI, verb and JSON body. */
  datatype PostRequest = PostRequest(uri: string, verb: string, body: Json)

  /** What the HTTP client reports: a transport error, if any, and the status code, if any. */
  datatype Response = Response(error: Option<string>, statusCode: Option<int>)

  /** The HTTP client: the response that a request receives. */
  type Transport = PostRequest -> Response

  /** How an invocation ends: the Lambda callback is called once, or an exception escapes. */
  datatype Completion =
    | Callback(error: Option<string>, result: Option<string>)
    | Threw(exception: string)

  /** Everything one invocation does: the requests issued, in order, and its completion. */
  datatype Invocation = Invocation(posts: seq<PostRequest>, completion: Completion)

  /** `Array.prototype.toString` on an array of strings: the elements separated by commas. */
  function Join(items: seq<string>): string
  {
    if |items| == 0 then ""
    else if |items| == 1 then items[0]
    else items[0] + "," + Join(items[1..])
  }

  /** Where the k-th item starts in `Join(items)`: each earlier item and its comma come first. */
  function Offset(items: seq<string>, k: nat): nat
    requires k <= |items|
  {
    if k == 0 then 0 else |items[0]| + 1 + Offset(items[1..], k - 1)
  }

  /**
   * The joined text holds every item, unchanged and in order, at its offset,
   * each one but the last followed by a comma.
   */
  lemma {:induction false} JoinAt(items: seq<string>, k: nat)
    requires k < |items|
    ensures Offset(items, k) + |items[k]| <= |Join(items)|
    ensures k + 1 < |items| ==> Offset(items, k) + |items[k]| < |Join(items)|
    ensures Join(items)[Offset(items, k)..Offset(items, k) + |items[k]|] == items[k]
    ensures k + 1 < |items| ==> Join(items)[Offset(items, k) + |items[k]|] == ','
  {
    if |items| > 1 {
      var tail := Join(items[1..]);
      assert Join(items) == items[0] + "," + tail;
      if k > 0 {
        JoinAt(items[1..], k - 1);
        var start := Offset(items[1..], k - 1);
        var o := |items[0]| + 1;
        assert Join(items)[o + start..o + start + |items[k]|] == tail[start..start + |items[k]|];
        if k + 1 < |items| {
          assert Join(items)[o + start + |items[k]|] == tail[start + |items[k]|];
        }
      }
    }
  }

  /** The joined text has no characters besides the items and the commas between them. */
  lemma {:induction false} JoinLength(items: seq<string>)
    ensures |items| == 0 ==> Join(items) == ""
    ensures |items| > 0 ==> |Join(items)| + 1 == Offset(items, |items|)
  {
    if |items| > 1 {
      JoinLength(items[1..]);
    }
  }

  /** The body `{text: ...}` that the webhook receives. */
  function TeamsMessage(text: string): Json
  {
    Object([("text", Str(text))])
  }

  /**
   * `sendToMicrosoftTeams`: one POST of the joined tables to the webhook, then
   * the callback with the request's error and 'done', whatever the status code.
   */
  function SendToMicrosoftTeams(tables: seq<string>, url: string, transport: Transport): (r: Invocation)
    ensures |r.posts| == 1
    ensures r.posts[0] == PostRequest(url, "POST", TeamsMessage(Join(tables)))
    ensures r.completion == Callback(transport(r.posts[0]).error, Some(DoneResult))
  {
    var request := PostRequest(url, "POST", TeamsMessage(Join(tables)));
    Invocation([request], Callback(transport(request).error, Some(DoneResult)))
  }

  /** The event's records; a missing `Records` reads as the empty list. */
  function EventRecords(event: Event): seq<EventRecord>
  {
    match event.records
    case Some(records) => records
    case None => []
  }

  /**
   * `exports.handler`: formats the records; rejects a batch without tables
   * before any request; otherwise posts them once. At most one request is
   * issued, and the callback receives 'done' exactly when one was.
   */
  function Handler(event: Event, url: string, parse: Parser, render: Renderer, transport: Transport): (r: Invocation)
    ensures |r.posts| <= 1
    ensures |r.posts| == 1 <==> r.completion.Callback? && r.completion.result == Some(DoneResult)
    ensures |r.posts| == 1 ==> r.completion.error == transport(r.posts[0]).error
  {
    match FormatAsHtmlTables(EventRecords(event), parse, render)
    case Failure(e) => Invocation([], Threw(e))
    case Success(tables) =>
      if |tables| == 0 then Invocation([], Callback(Some(EmptyBatchError), None))
      else SendToMicrosoftTeams(tables, url, transport)
  }

  /** An event without `Records` is handled exactly like one with an empty list. */
  lemma MissingRecordsLikeEmpty(url: string, parse: Parser, render: Renderer, transport: Transport)
    ensures Handler(Event(None), url, parse, render, transport) == Handler(Event(Some([])), url, parse, render, transport)
    ensures Handler(Event(None), url, parse, render, transport) == Invocation([], Callback(Some(EmptyBatchError), None))
  {
    EmptyIffNoSnsRecords([], parse, render);
  }

  /**
   * The handler rejects the event with the fixed message exactly when no
   * record carries `Sns`, and then issues no request.
   */
  lemma RejectedIffNoSnsRecords(event: Event, url: string, parse: Parser, render: Renderer, transport: Transport)
    ensures var r := Handler(event, url, parse, render, transport);
      (r.completion == Callback(Some(EmptyBatchError), None) <==>
        forall i :: 0 <= i < |EventRecords(event)| ==> EventRecords(event)[i].sns.None?) &&
      (r.completion == Callback(Some(EmptyBatchError), None) ==> r.posts == [])
  {
    EmptyIffNoSnsRecords(EventRecords(event), parse, render);
  }

  /**
   * The handler throws exactly when a record carrying `Sns` has a message that
   * does not parse; the exception is the parse error of the first such record,
   * and no request is issued.
   */
  lemma ThrowsIffMalformedMessage(event: Event, url: string, parse: Parser, render: Renderer, transport: Transport)
    ensures var r := Handler(event, url, parse, render, transport);
      (r.completion.Threw? <==> exists i :: 0 <= i < |EventRecords(event)| && Malformed(EventRecords(event)[i], parse)) &&
      (r.completion.Threw? ==>
        r.posts == [] &&
        exists i :: 0 <= i < |EventRecords(event)| && Malformed(EventRecords(event)[i], parse) &&
          parse(EventRecords(event)[i].sns.value.message.value) == Failure(r.completion.exception) &&
          forall j :: 0 <= j < i ==> !Malformed(EventRecords(event)[j], parse))
  {
    var records := EventRecords(event);
    var r := Handler(event, url, parse, render, transport);
    if exists i :: 0 <= i < |records| && Malformed(records[i], parse) {
      var i :| 0 <= i < |records| && Malformed(records[i], parse);
      MalformedMessageAbortsBatch(records, parse, render, i);
    }
    if r.completion.Threw? {
      FailureIsFirstMalformed(records, parse, render);
    }
  }

  /**
   * When the batch formats to a non-empty list of tables, exactly one POST is
   * issued to the webhook URL, carrying those tables joined with commas, and
   * the callback receives the request's error and 'done'.
   */
  lemma PostsJoinedTables(event: Event, url: string, parse: Parser, render: Renderer, transport: Transport)
    requires FormatAsHtmlTables(EventRecords(event), parse, render).Success?
    requires FormatAsHtmlTables(EventRecords(event), parse, render).value != []
    ensures var tables := FormatAsHtmlTables(EventRecords(event), parse, render).value;
      var request := PostRequest(url, "POST", TeamsMessage(Join(tables)));
      Handler(event, url, parse, render, transport) == Invocation([request], Callback(transport(request).error, Some(DoneResult)))
  {
  }

  /**
   * The status code never reaches the callback: two transports that report
   * the same errors give the same invocation.
   */
  lemma StatusCodeOnlyLogged(event: Event, url: string, parse: Parser, render: Renderer, t1: Transport, t2: Transport)
    requires forall request :: t1(request).error == t2(request).error
    ensures Handler(event, url, parse, render, t1) == Handler(event, url, parse, render, t2)
  {
  }
}
