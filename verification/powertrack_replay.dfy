/** The PowerTrack replay client (lib/gnippy/powertrack/powertrack_replay.js):
    like the stream client, but the constructor builds a query naming the
    range to replay. */
module PowertrackReplay {
  import opened Gnip
  import opened Events
  import Session

  datatype QueryError = RangeRequired

  /** The `Error.message` each query error is thrown with, kept as its rendering. */
  function QueryMessage(e: QueryError): string
  {
    "Replay requires two query parameters fromDate and toDate to specify the range to replay."
  }

  /** `buildQueryString`: both ends of the range must be present; the query is
      passed on unchanged. */
  function BuildQuery(q: Query): (r: Result<Query, QueryError>)
    ensures r.Failure? <==> "fromDate" !in q || "toDate" !in q
    ensures r.Success? ==> r.value == q
  {
    if "fromDate" !in q || "toDate" !in q then Failure(RangeRequired) else Success(q)
  }

  function StatusError(status: nat): Arg
  {
    TextArg("Status is not 200.")
  }

  class PowerTrackReplay {
    const options: Options
    const platform: string
    const query: Query
    var active: bool
    var piping: bool
    var requests: nat
    var events: seq<Emission>

    ghost function State(): Session.State
      reads this
    {
      Session.State(active, piping, requests, events)
    }

    ghost predicate Valid()
      reads this
    {
      Session.Valid(State())
    }

    constructor (options: Options, query: Query)
      ensures this.options == options && platform == Platform(options) && this.query == query
      ensures Valid() && State() == Session.Idle
    {
      this.options := options;
      platform := Platform(options);
      this.query := query;
      active, piping, requests, events := false, false, 0, [];
    }

    /** The constructor: it throws when the query lacks either end of the range. */
    static method Open(options: Options, query: Query) returns (r: Result<PowerTrackReplay, QueryError>)
      ensures r.Failure? <==> BuildQuery(query).Failure?
      ensures r.Failure? ==> r.error == BuildQuery(query).error
      ensures r.Success? ==> fresh(r.value) && r.value.Valid() && r.value.State() == Session.Idle
      ensures r.Success? ==> r.value.options == options && r.value.query == query
    {
      var built := BuildQuery(query);
      if built.Failure? {
        return Failure(built.error);
      }
      var replay := new PowerTrackReplay(options, built.value);
      return Success(replay);
    }

    method Start() returns (thrown: Option<ConfigError>)
      requires Valid()
      modifies this
      ensures Valid()
      ensures thrown == IdentityCheck(options)
      ensures State() == Session.Start(old(State()), thrown)
    {
      thrown := IdentityCheck(options);
      if thrown.None? {
        active, piping := true, false;
        requests := requests + 1;
      }
    }

    method OnResponse(status: nat, encoding: Option<string>)
      requires Valid()
      modifies this
      ensures Valid()
      ensures State() == Session.Respond(old(State()), status, encoding, StatusError(status))
    {
      if active {
        if status != 200 {
          events := events + [ErrorEvent(StatusError(status))];
        }
        piping := encoding == Some("gzip");
        if !piping {
          events := events + [ErrorEvent(EncodingError(encoding))];
        }
      }
    }

    method OnRecord(rec: Record)
      requires Valid()
      modifies this
      ensures Valid()
      ensures State() == Session.Deliver(old(State()), DataAndVerb(rec))
    {
      if active && piping {
        events := events + DataAndVerb(rec);
      }
    }

    method End()
      requires Valid()
      modifies this
      ensures Valid()
      ensures State() == Session.End(old(State()))
    {
      if active {
        active, piping := false, false;
        events := events + [EndEvent];
      }
    }
  }
}
