/** The Search client (lib/gnippy/search/twitter_search.js): the constructor
    validates the query, `start` fetches the first page, `nextPage` fetches the
    page named by a cursor, and each page is published on `data`, `page:next`,
    `page:is_last` and its verb. */
module TwitterSearch {
  import opened Gnip
  import opened Events
  import Session

  datatype QueryError =
    | QueryRequired
    | MomentUndefined
    | MaxResultsTooSmall
    | MaxResultsTooLarge

  /** The `Error.message` each query error is thrown with, kept as its rendering. */
  function QueryMessage(e: QueryError): string
  {
    match e
    case QueryRequired =>
      "\"The query parameter is required. Search requires ALL portions of the PowerTrack rule, including all operators, and portions of the rule should not be separated into other parameters of the query."
    case MomentUndefined => "ReferenceError: moment is not defined"
    case MaxResultsTooSmall => "The value of maxResults must be greater than or equal to 10."
    case MaxResultsTooLarge => "The value of maxResults must be less than 500."
  }

  /** A query value as a relational operand: a number, or NaN for anything else. */
  function AsNumber(v: QValue): Option<int>
  {
    if v.Number? then Some(v.number) else None
  }

  /** A numeric `maxResults` outside [10, 500]. */
  predicate MaxResultsOutOfRange(q: Query)
  {
    "maxResults" in q && AsNumber(q["maxResults"]).Some? &&
    (AsNumber(q["maxResults"]).value < 10 || AsNumber(q["maxResults"]).value > 500)
  }

  /** `buildQueryString`. A `query` key is required. Any `fromDate` reaches a
      call of `moment`, which this file never imports, and so throws a
      ReferenceError. A numeric `maxResults` must lie in [10, 500]. The result
      adds `publisher: 'twitter'` unless the caller gave one. */
  function BuildQuery(q: Query): (r: Result<Query, QueryError>)
    ensures r.Success? <==> "query" in q && "fromDate" !in q && !MaxResultsOutOfRange(q)
    ensures "query" !in q ==> r == Failure(QueryRequired)
    ensures "query" in q && "fromDate" in q ==> r == Failure(MomentUndefined)
    ensures r.Success? ==> r.value.Keys == q.Keys + {"publisher"}
    ensures r.Success? ==> forall k :: k in q ==> r.value[k] == q[k]
    ensures r.Success? && "publisher" !in q ==> r.value["publisher"] == Text("twitter")
  {
    if "query" !in q then Failure(QueryRequired)
    else if "fromDate" in q then Failure(MomentUndefined)
    else if "maxResults" in q && AsNumber(q["maxResults"]).Some? && AsNumber(q["maxResults"]).value < 10 then
      Failure(MaxResultsTooSmall)
    else if "maxResults" in q && AsNumber(q["maxResults"]).Some? && AsNumber(q["maxResults"]).value > 500 then
      Failure(MaxResultsTooLarge)
    else Success(map["publisher" := Text("twitter")] + q)
  }

  /** For an otherwise acceptable query, a numeric `maxResults` is refused
      exactly when it lies outside [10, 500]; both bounds are accepted. */
  lemma MaxResultsBounds(q: Query, n: int)
    requires "query" in q && "fromDate" !in q
    requires "maxResults" in q && q["maxResults"] == Number(n)
    ensures BuildQuery(q).Failure? <==> n < 10 || n > 500
    ensures n < 10 ==> BuildQuery(q) == Failure(MaxResultsTooSmall)
    ensures n > 500 ==> BuildQuery(q) == Failure(MaxResultsTooLarge)
  {
  }

  /** Setting the `next` cursor keeps an accepted query accepted, and the new
      query string differs from the old one only in `next`. */
  lemma {:induction false} NextCursorKeepsQuery(q: Query, cursor: string)
    requires BuildQuery(q).Success?
    ensures BuildQuery(q["next" := Text(cursor)]).Success?
    ensures BuildQuery(q["next" := Text(cursor)]).value == BuildQuery(q).value["next" := Text(cursor)]
  {
    var q' := q["next" := Text(cursor)];
    assert "query" in q' && "fromDate" !in q';
    assert "maxResults" in q' ==> q'["maxResults"] == q["maxResults"];
    var p := map["publisher" := Text("twitter")];
    assert p + q' == (p + q)["next" := Text(cursor)];
  }

  /** The guards of `nextPage`, in their order: the account name, then the
      cursor, then the credentials. */
  function PageCheck(o: Options, cursor: Option<string>): (r: Option<ConfigError>)
    ensures Falsy(o.accountName) ==> r == Some(MissingAccountName)
    ensures !Falsy(o.accountName) && Falsy(cursor) ==> r == Some(MissingCursor)
    ensures r.None? <==> IdentityCheck(o).None? && !Falsy(cursor)
    ensures !Falsy(o.accountName) && !Falsy(cursor) ==> r == IdentityCheck(o)
  {
    if Falsy(o.accountName) then Some(MissingAccountName)
    else if Falsy(cursor) then Some(MissingCursor)
    else IdentityCheck(o)
  }

  /** `_.isEmpty(data.next)` */
  predicate IsLastPage(rec: Record)
  {
    rec.next.None? || rec.next.value == ""
  }

  /** One page: `data`, then `page:next` with the cursor, then `page:is_last`,
      then the record's verb. */
  function RecordEmissions(rec: Record): (r: seq<Emission>)
    ensures |r| == 4 && !Throws(r)
    ensures r[0] == Emit(Named("data"), [RecordArg(rec)])
    ensures r[1] == Emit(Named("page:next"), [CursorArg(rec.next)])
    ensures r[2] == Emit(Named("page:is_last"), [FlagArg(IsLastPage(rec))])
    ensures r[3] == Emit(VerbName(rec.verb), [RecordArg(rec)])
  {
    [Emit(Named("data"), [RecordArg(rec)]),
     Emit(Named("page:next"), [CursorArg(rec.next)]),
     Emit(Named("page:is_last"), [FlagArg(IsLastPage(rec))]),
     Emit(VerbName(rec.verb), [RecordArg(rec)])]
  }

  function StatusError(status: nat): Arg
  {
    CodedArg(status, "Status is not 200. Returned " + Decimal(status))
  }

  class Search {
    const options: Options
    const platform: string
    /** The query string the constructor built into the request URI. */
    const startQuery: Query
    /** `options.query`, which `nextPage` updates in place. */
    var query: Query
    var active: bool
    var piping: bool
    /** The query string of every request issued, in order. */
    var sent: seq<Query>
    var events: seq<Emission>

    ghost function State(): Session.State
      reads this
    {
      Session.State(active, piping, |sent|, events)
    }

    ghost predicate Valid()
      reads this
    {
      Session.Valid(State()) && BuildQuery(query).Success?
    }

    constructor (options: Options, query: Query)
      requires BuildQuery(query).Success?
      ensures this.options == options && platform == Platform(options)
      ensures this.query == query && startQuery == BuildQuery(query).value
      ensures Valid() && State() == Session.Idle && sent == []
    {
      this.options := options;
      platform := Platform(options);
      this.query := query;
      startQuery := BuildQuery(query).value;
      active, piping, sent, events := false, false, [], [];
    }

    /** The constructor: it throws when `buildQueryString` refuses the query. */
    static method Open(options: Options, query: Query) returns (r: Result<Search, QueryError>)
      ensures r.Failure? <==> BuildQuery(query).Failure?
      ensures r.Failure? ==> r.error == BuildQuery(query).error
      ensures r.Success? ==> fresh(r.value) && r.value.Valid() && r.value.State() == Session.Idle
      ensures r.Success? ==> r.value.options == options && r.value.query == query
      ensures r.Success? ==> r.value.startQuery == BuildQuery(query).value
    {
      var built := BuildQuery(query);
      if built.Failure? {
        return Failure(built.error);
      }
      var search := new Search(options, query);
      return Success(search);
    }

    method Start() returns (thrown: Option<ConfigError>)
      requires Valid()
      modifies this
      ensures Valid()
      ensures thrown == IdentityCheck(options)
      ensures State() == Session.Start(old(State()), thrown)
      ensures query == old(query)
      ensures sent == old(sent) + (if thrown.None? then [startQuery] else [])
    {
      thrown := IdentityCheck(options);
      if thrown.None? {
        active, piping := true, false;
        sent := sent + [startQuery];
      }
    }

    /** Fetches the page after `cursor`: the guards run first; then the cursor is
        written into `options.query` itself (the clone is shallow) and the
        request carries the rebuilt query string. */
    method NextPage(cursor: Option<string>) returns (thrown: Option<ConfigError>)
      requires Valid()
      modifies this
      ensures Valid()
      ensures thrown == PageCheck(options, cursor)
      ensures State() == Session.Start(old(State()), thrown)
      ensures thrown.Some? ==> query == old(query) && sent == old(sent)
      ensures thrown.None? ==> query == old(query)["next" := Text(cursor.value)]
      ensures thrown.None? ==> sent == old(sent) + [BuildQuery(old(query)).value["next" := Text(cursor.value)]]
    {
      thrown := PageCheck(options, cursor);
      if thrown.None? {
        NextCursorKeepsQuery(query, cursor.value);
        query := query["next" := Text(cursor.value)];
        sent := sent + [BuildQuery(query).value];
        active, piping := true, false;
      }
    }

    method OnResponse(status: nat, encoding: Option<string>)
      requires Valid()
      modifies this
      ensures Valid()
      ensures State() == Session.Respond(old(State()), status, encoding, StatusError(status))
      ensures query == old(query) && sent == old(sent)
    {
      if active {
        if status != 200 {
          events := events + [ErrorEvent(StatusError(status))];
        }
        piping := encoding == Some("gzip");
        if !piping {
          events := events + [ErrorEvent(EncodingError(encoding))];
        }
      }
    }

    method OnRecord(rec: Record)
      requires Valid()
      modifies this
      ensures Valid()
      ensures State() == Session.Deliver(old(State()), RecordEmissions(rec))
      ensures query == old(query) && sent == old(sent)
    {
      if active && piping {
        events := events + RecordEmissions(rec);
      }
    }

    method End()
      requires Valid()
      modifies this
      ensures Valid()
      ensures State() == Session.End(old(State()))
      ensures query == old(query) && sent == old(sent)
    {
      if active {
        active, piping := false, false;
        events := events + [EndEvent];
      }
    }
  }
}
