/** The PowerTrack stream client (lib/gnippy/powertrack/powertrack_stream.js):
    one long-lived request to the track endpoint, whose records are published
    on `data` and on their verb. */
module PowertrackStream {
  import opened Gnip
  import opened Events
  import Session

  /** A non-200 response is reported as a plain string. */
  function StatusError(status: nat): Arg
  {
    TextArg("Status is not 200.")
  }

  class PowerTrackStream {
    const options: Options
    const platform: string
    var active: bool
    var piping: bool
    var requests: nat
    var events: seq<Emission>

    ghost function State(): Session.State
      reads this
    {
      Session.State(active, piping, requests, events)
    }

    ghost predicate Valid()
      reads this
    {
      Session.Valid(State())
    }

    constructor (options: Options)
      ensures this.options == options && platform == Platform(options)
      ensures Valid() && State() == Session.Idle
    {
      this.options := options;
      platform := Platform(options);
      active, piping, requests, events := false, false, 0, [];
    }

    /** Throws on a missing account name, then on missing credentials, before
        any request is stored. */
    method Start() returns (thrown: Option<ConfigError>)
      requires Valid()
      modifies this
      ensures Valid()
      ensures thrown == IdentityCheck(options)
      ensures State() == Session.Start(old(State()), thrown)
    {
      thrown := IdentityCheck(options);
      if thrown.None? {
        active, piping := true, false;
        requests := requests + 1;
      }
    }

    /** The request's `response` handler. */
    method OnResponse(status: nat, encoding: Option<string>)
      requires Valid()
      modifies this
      ensures Valid()
      ensures State() == Session.Respond(old(State()), status, encoding, StatusError(status))
    {
      if active {
        if status != 200 {
          events := events + [ErrorEvent(StatusError(status))];
        }
        piping := encoding == Some("gzip");
        if !piping {
          events := events + [ErrorEvent(EncodingError(encoding))];
        }
      }
    }

    /** The decoder hands over one record. */
    method OnRecord(rec: Record)
      requires Valid()
      modifies this
      ensures Valid()
      ensures State() == Session.Deliver(old(State()), DataAndVerb(rec))
    {
      if active && piping {
        events := events + DataAndVerb(rec);
      }
    }

    method End()
      requires Valid()
      modifies this
      ensures Valid()
      ensures State() == Session.End(old(State()))
    {
      if active {
        active, piping := false, false;
        events := events + [EndEvent];
      }
    }
  }
}
