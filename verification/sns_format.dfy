/**
 * Record extraction and formatting (index.js:4-14): the event's records are
 * filtered down to those that carry an `Sns` sub-record, each sub-record is
 * normalised by `parseSnsRecord`, and each normalised record is rendered to
 * an HTML table.
 *
 * `JSON.parse` and `tableify` are libraries whose internals are not modelled;
 * they are passed in as the functions `parse` and `render`, so everything
 * proved here holds for every parser and every renderer.
 */
module SnsFormat {
  import opened Wrappers

  /** A JSON value, as `JSON.parse` produces it (numbers restricted to integers). */
  datatype Json =
    | Null
    | Bool(b: bool)
    | Number(n: int)
    | Str(s: string)
    | Array(elements: seq<Json>)
    | Object(members: seq<(string, Json)>)

  /** The `Sns` sub-record of an event record; each field is a string or absent. */
  datatype SnsRecord = SnsRecord(
    messageId: Option<string>,
    topicArn: Option<string>,
    subject: Option<string>,
    message: Option<string>)

  /** One entry of the event's `Records` list; `sns` is `None` when it carries no `Sns` object. */
  datatype EventRecord = EventRecord(sns: Option<SnsRecord>)

  /** The object literal built by `parseSnsRecord`. */
  datatype Notification = Notification(
    messageId: Option<string>,
    topicArn: Option<string>,
    subject: Option<string>,
    message: Json)

  /** `JSON.parse`: a JSON value, or the error it throws. */
  type Parser = string -> Result<Json, string>

  /** `tableify`: the HTML rendering of one notification. */
  type Renderer = Notification -> string

  /** JavaScript truthiness of a field that is a string or absent. */
  predicate Truthy(field: Option<string>)
  {
    field.Some? && field.value != ""
  }

  /**
   * `parseSnsRecord`: copies the three metadata fields unchanged; the message
   * is `null` when the field is absent or empty and otherwise the parse of it,
   * and a parse failure is the failure of the whole call.
   */
  function ParseSnsRecord(sns: SnsRecord, parse: Parser): (r: Result<Notification, string>)
    ensures r.Success? ==>
      r.value.messageId == sns.messageId && r.value.topicArn == sns.topicArn && r.value.subject == sns.subject
    ensures !Truthy(sns.message) ==> r.Success? && r.value.message == Null
    ensures Truthy(sns.message) ==>
      match parse(sns.message.value)
      case Success(j) => r.Success? && r.value.message == j
      case Failure(e) => r == Failure(e)
  {
    if Truthy(sns.message) then
      match parse(sns.message.value)
      case Success(j) => Success(Notification(sns.messageId, sns.topicArn, sns.subject, j))
      case Failure(e) => Failure(e)
    else
      Success(Notification(sns.messageId, sns.topicArn, sns.subject, Null))
  }

  /** The `Sns` sub-records of the records that carry one, in order (`filter` then `map(record.Sns)`). */
  function WithSns(records: seq<EventRecord>): (r: seq<SnsRecord>)
    ensures |r| <= |records|
  {
    if records == [] then []
    else
      var rest := WithSns(records[1..]);
      match records[0].sns
      case Some(s) => [s] + rest
      case None => rest
  }

  /** Strictly increasing positions. */
  ghost predicate Increasing(positions: seq<nat>)
  {
    forall j, k :: 0 <= j < k < |positions| ==> positions[j] < positions[k]
  }

  /**
   * The filter keeps exactly the records that carry `Sns`, in their original
   * order: the k-th kept sub-record is that of the k-th such record.
   */
  lemma {:induction false} WithSnsPositions(records: seq<EventRecord>) returns (positions: seq<nat>)
    ensures Increasing(positions) && |positions| == |WithSns(records)|
    ensures forall k :: 0 <= k < |positions| ==>
      positions[k] < |records| && records[positions[k]].sns == Some(WithSns(records)[k])
    ensures forall i :: 0 <= i < |records| && records[i].sns.Some? ==> i in positions
  {
    if records == [] {
      positions := [];
    } else {
      var n := |records| - 1;
      var init, last := records[..n], records[n];
      assert records == init + [last];
      WithSnsAppend(init, [last]);
      var kept := WithSnsPositions(init);
      assert WithSns([last]) == (if last.sns.Some? then [last.sns.value] else []) by {
        assert [last][1..] == [];
      }
      if last.sns.Some? {
        positions := kept + [n];
      } else {
        positions := kept;
      }
    }
  }

  /** Filtering distributes over concatenation, so records keep their relative order. */
  lemma {:induction false} WithSnsAppend(a: seq<EventRecord>, b: seq<EventRecord>)
    ensures WithSns(a + b) == WithSns(a) + WithSns(b)
  {
    if a == [] {
      assert a + b == b;
    } else {
      assert (a + b)[1..] == a[1..] + b;
      WithSnsAppend(a[1..], b);
    }
  }

  /**
   * The first `.map`: parses every sub-record in order; the first failure
   * aborts the whole list (no partial result), otherwise the k-th result is
   * the parse of the k-th sub-record.
   */
  function ParseAll(subs: seq<SnsRecord>, parse: Parser): (r: Result<seq<Notification>, string>)
    ensures r.Success? <==> forall k :: 0 <= k < |subs| ==> ParseSnsRecord(subs[k], parse).Success?
    ensures r.Success? ==>
      |r.value| == |subs| &&
      forall k :: 0 <= k < |subs| ==> ParseSnsRecord(subs[k], parse) == Success(r.value[k])
    ensures r.Failure? ==>
      exists k :: 0 <= k < |subs| && ParseSnsRecord(subs[k], parse) == Failure(r.error) &&
        forall j :: 0 <= j < k ==> ParseSnsRecord(subs[j], parse).Success?
  {
    if subs == [] then Success([])
    else
      assert forall k :: 1 <= k < |subs| ==> subs[k] == subs[1..][k - 1];
      match ParseSnsRecord(subs[0], parse)
      case Failure(e) => Failure(e)
      case Success(n) =>
        match ParseAll(subs[1..], parse)
        case Failure(e) =>
          ghost var k :| 0 <= k < |subs[1..]| && ParseSnsRecord(subs[1..][k], parse) == Failure(e) &&
            forall j :: 0 <= j < k ==> ParseSnsRecord(subs[1..][j], parse).Success?;
          assert ParseSnsRecord(subs[k + 1], parse) == Failure(e);
          Failure(e)
        case Success(ns) => Success([n] + ns)
  }

  /** The second `.map`: one call of the renderer per notification, in order. */
  function RenderAll(notifications: seq<Notification>, render: Renderer): (r: seq<string>)
    ensures |r| == |notifications|
    ensures forall k :: 0 <= k < |r| ==> r[k] == render(notifications[k])
  {
    seq(|notifications|, k requires 0 <= k < |notifications| => render(notifications[k]))
  }

  /**
   * `formatAsHtmlTables`: the rendered tables of the records that carry `Sns`,
   * one per such record and in order, or the parse error that aborted the batch.
   */
  function FormatAsHtmlTables(records: seq<EventRecord>, parse: Parser, render: Renderer): (r: Result<seq<string>, string>)
    ensures r.Success? <==>
      forall k :: 0 <= k < |WithSns(records)| ==> ParseSnsRecord(WithSns(records)[k], parse).Success?
    ensures r.Success? ==>
      |r.value| == |WithSns(records)| &&
      forall k :: 0 <= k < |r.value| ==> r.value[k] == render(ParseSnsRecord(WithSns(records)[k], parse).value)
  {
    match ParseAll(WithSns(records), parse)
    case Failure(e) => Failure(e)
    case Success(ns) => Success(RenderAll(ns, render))
  }

  /**
   * On success there is one table per record carrying `Sns`, in input order:
   * the k-th table is the rendering of the record at the k-th such position.
   */
  lemma FormattedPerSnsRecordInOrder(records: seq<EventRecord>, parse: Parser, render: Renderer)
    returns (positions: seq<nat>)
    requires FormatAsHtmlTables(records, parse, render).Success?
    ensures Increasing(positions)
    ensures forall i :: 0 <= i < |records| && records[i].sns.Some? ==> i in positions
    ensures var tables := FormatAsHtmlTables(records, parse, render).value;
      |tables| == |positions| &&
      forall k :: 0 <= k < |positions| ==>
        positions[k] < |records| && records[positions[k]].sns.Some? &&
        ParseSnsRecord(records[positions[k]].sns.value, parse).Success? &&
        tables[k] == render(ParseSnsRecord(records[positions[k]].sns.value, parse).value)
  {
    positions := WithSnsPositions(records);
  }

  /** A record without `Sns` never changes the outcome, wherever it stands. */
  lemma RecordWithoutSnsIgnored(a: seq<EventRecord>, b: seq<EventRecord>, parse: Parser, render: Renderer)
    ensures FormatAsHtmlTables(a + [EventRecord(None)] + b, parse, render) == FormatAsHtmlTables(a + b, parse, render)
  {
    var none := [EventRecord(None)];
    assert WithSns(none) == [] by {
      assert none[1..] == [];
    }
    WithSnsAppend(a, none);
    WithSnsAppend(a + none, b);
    WithSnsAppend(a, b);
    assert WithSns(a + none + b) == WithSns(a + b);
  }

  /** The formatted list is empty exactly when no record carries `Sns`; such a batch never fails. */
  lemma EmptyIffNoSnsRecords(records: seq<EventRecord>, parse: Parser, render: Renderer)
    ensures FormatAsHtmlTables(records, parse, render) == Success([]) <==>
      forall i :: 0 <= i < |records| ==> records[i].sns.None?
  {
    var positions := WithSnsPositions(records);
    if forall i :: 0 <= i < |records| ==> records[i].sns.None? {
      NoSnsFiltersToEmpty(records);
    } else {
      var i :| 0 <= i < |records| && records[i].sns.Some?;
      assert i in positions;
    }
  }

  /** A batch in which no record carries `Sns` filters down to nothing. */
  lemma {:induction false} NoSnsFiltersToEmpty(records: seq<EventRecord>)
    requires forall i :: 0 <= i < |records| ==> records[i].sns.None?
    ensures WithSns(records) == []
  {
    if records != [] {
      assert records[0].sns.None?;
      assert forall i :: 0 <= i < |records[1..]| ==> records[1..][i] == records[i + 1];
      NoSnsFiltersToEmpty(records[1..]);
    }
  }

  /** A record carrying `Sns` whose message is non-empty and does not parse. */
  predicate Malformed(record: EventRecord, parse: Parser)
  {
    record.sns.Some? && Truthy(record.sns.value.message) && parse(record.sns.value.message.value).Failure?
  }

  /** A single record whose message does not parse makes the whole batch fail. */
  lemma MalformedMessageAbortsBatch(records: seq<EventRecord>, parse: Parser, render: Renderer, i: nat)
    requires i < |records| && Malformed(records[i], parse)
    ensures FormatAsHtmlTables(records, parse, render).Failure?
  {
    var positions := WithSnsPositions(records);
    var k :| 0 <= k < |positions| && positions[k] == i;
    assert !ParseSnsRecord(WithSns(records)[k], parse).Success?;
  }

  /**
   * A failed batch has a malformed record, the first one of which supplies
   * the error: the records are parsed in order and the first failure aborts.
   */
  lemma FailureIsFirstMalformed(records: seq<EventRecord>, parse: Parser, render: Renderer)
    requires FormatAsHtmlTables(records, parse, render).Failure?
    ensures exists i ::
      && 0 <= i < |records| && Malformed(records[i], parse)
      && parse(records[i].sns.value.message.value) == Failure(FormatAsHtmlTables(records, parse, render).error)
      && forall j :: 0 <= j < i ==> !Malformed(records[j], parse)
  {
    var positions := WithSnsPositions(records);
    var subs := WithSns(records);
    var all := ParseAll(subs, parse);
    assert FormatAsHtmlTables(records, parse, render).error == all.error;
    var k :| 0 <= k < |subs| && ParseSnsRecord(subs[k], parse) == Failure(all.error) &&
      forall j :: 0 <= j < k ==> ParseSnsRecord(subs[j], parse).Success?;
    var i := positions[k];
    assert records[i].sns == Some(subs[k]);
    WellFormedBefore(records, subs, positions, k, parse);
    assert Malformed(records[i], parse);
  }

  /** The records before the k-th kept one are well formed when the first k kept ones parse. */
  lemma WellFormedBefore(records: seq<EventRecord>, subs: seq<SnsRecord>, positions: seq<nat>, k: nat, parse: Parser)
    requires Increasing(positions) && |positions| == |subs| && k < |subs|
    requires forall m :: 0 <= m < |positions| ==> positions[m] < |records| && records[positions[m]].sns == Some(subs[m])
    requires forall i :: 0 <= i < |records| && records[i].sns.Some? ==> i in positions
    requires forall j :: 0 <= j < k ==> ParseSnsRecord(subs[j], parse).Success?
    ensures forall j :: 0 <= j < positions[k] ==> !Malformed(records[j], parse)
  {
  }
}
