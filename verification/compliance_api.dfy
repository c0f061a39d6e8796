/** The Compliance API client (lib/gnippy/compliance/compliance_api.js): the
    constructor checks the requested date window, `start` issues one request,
    and each compliance record fans out to `data`, `summary`, possibly
    `failure`, and three events per entry of its `results`. Dates are whole
    minutes; `now` is the current minute. */
module ComplianceApi {
  import opened Gnip
  import opened Events
  import Session

  datatype QueryError = MinimumToDate | MaxRequestedTimePeriod

  /** The `Error.message` each query error is thrown with, kept as its rendering. */
  function QueryMessage(e: QueryError): string
  {
    match e
    case MinimumToDate =>
      "Minimum toDate: The Compliance API can only accept requests where the toDate is at least 5 minutes in the past."
    case MaxRequestedTimePeriod =>
      "Max Requested Time Period: The max time period allowed per request is 10 minutes."
  }

  /** The window requested when the caller gives no dates: from 15 to 5 minutes ago. */
  function Defaults(now: int): (r: Query)
    ensures r.Keys == {"fromDate", "toDate"}
    ensures r["fromDate"] == Stamp(now - 15) && r["toDate"] == Stamp(now - 5)
  {
    map["fromDate" := Stamp(now - 15), "toDate" := Stamp(now - 5)]
  }

  /** `buildQueryString`: the defaults, overridden by the caller's keys; then
      the toDate must be at least 5 minutes old, and the toDate minus 10 minutes
      must not fall before the fromDate. An unparseable date compares false
      both times and so passes. */
  function BuildQuery(q: Query, now: int): (r: Result<Query, QueryError>)
    ensures r.Success? ==> r.value == Defaults(now) + q
    ensures r.Success? ==> forall k :: k in q ==> k in r.value && r.value[k] == q[k]
    ensures r.Success? ==> r.value.Keys == q.Keys + {"fromDate", "toDate"}
    ensures r.Failure? ==> Minutes((Defaults(now) + q)["toDate"]).Some?
  {
    var full := Defaults(now) + q;
    var to := Minutes(full["toDate"]);
    var from := Minutes(full["fromDate"]);
    if to.Some? && to.value > now - 5 then Failure(MinimumToDate)
    else if to.Some? && from.Some? && to.value - 10 < from.value then Failure(MaxRequestedTimePeriod)
    else Success(full)
  }

  /** Missing dates take the defaults, and the default window passes both checks. */
  lemma DefaultWindowAccepted(q: Query, now: int)
    requires "fromDate" !in q && "toDate" !in q
    ensures BuildQuery(q, now).Success?
    ensures BuildQuery(q, now).value["fromDate"] == Stamp(now - 15)
    ensures BuildQuery(q, now).value["toDate"] == Stamp(now - 5)
  {
    var full := Defaults(now) + q;
    assert full["fromDate"] == Stamp(now - 15) && full["toDate"] == Stamp(now - 5);
  }

  /** A parseable toDate, given or defaulted, is refused with the "Minimum
      toDate" error exactly when it is later than 5 minutes ago. */
  lemma ToDateRule(q: Query, now: int, to: int)
    requires (Defaults(now) + q)["toDate"] == Stamp(to)
    ensures BuildQuery(q, now) == Failure(MinimumToDate) <==> to > now - 5
  {
  }

  /** With an acceptable toDate, the "Max Requested Time Period" error is raised
      exactly when the fromDate is after the toDate minus 10 minutes, each date
      given or defaulted: a window shorter than 10 minutes (or reversed) is
      refused, a window of 10 minutes or longer passes. */
  lemma WindowRule(q: Query, now: int, from: int, to: int)
    requires (Defaults(now) + q)["fromDate"] == Stamp(from)
    requires (Defaults(now) + q)["toDate"] == Stamp(to)
    requires to <= now - 5
    ensures BuildQuery(q, now).Failure? <==> from > to - 10
    ensures BuildQuery(q, now).Failure? ==> BuildQuery(q, now).error == MaxRequestedTimePeriod
    ensures BuildQuery(q, now).Success? && "fromDate" in q && "toDate" in q ==> BuildQuery(q, now).value == q
  {
    if "fromDate" in q && "toDate" in q {
      assert (Defaults(now) + q).Keys == q.Keys;
    }
  }

  /** Given only a parseable toDate, the defaulted fromDate (15 minutes ago)
      makes every toDate earlier than 5 minutes ago too close to it: only a
      toDate of exactly 5 minutes ago is accepted. */
  lemma OnlyToDateGiven(q: Query, now: int, to: int)
    requires "fromDate" !in q && "toDate" in q && q["toDate"] == Stamp(to)
    ensures BuildQuery(q, now).Success? <==> to == now - 5
    ensures to < now - 5 ==> BuildQuery(q, now) == Failure(MaxRequestedTimePeriod)
  {
    var full := Defaults(now) + q;
    assert full["fromDate"] == Stamp(now - 15) && full["toDate"] == Stamp(to);
    ToDateRule(q, now, to);
    if to <= now - 5 {
      WindowRule(q, now, now - 15, to);
    }
  }

  /** A toDate that `moment` cannot read is never refused: both comparisons
      are against NaN. */
  lemma UnparseableToDatePasses(q: Query, now: int)
    requires "toDate" in q && Minutes(q["toDate"]).None?
    ensures BuildQuery(q, now).Success?
  {
  }

  /** A fromDate that `moment` cannot read, beside an acceptable toDate, is not
      refused: the window comparison is against NaN. */
  lemma UnparseableFromDatePasses(q: Query, now: int, to: int)
    requires "fromDate" in q && Minutes(q["fromDate"]).None?
    requires (Defaults(now) + q)["toDate"] == Stamp(to) && to <= now - 5
    ensures BuildQuery(q, now).Success?
  {
  }

  /** The join of `['product', v]` and the like: `undefined` renders as "". */
  function Label(v: Option<string>): string
  {
    if v.Some? then v.value else ""
  }

  /** `_.first(_.keys(original))`, rendered by the join. */
  function EventType(e: ResultEntry): string
  {
    if |e.originalKeys| > 0 then e.originalKeys[0] else ""
  }

  /** `{activity_id, user_id}`: null unless `gnip` has the `activity` (`user`)
      key. An id that is itself null and an id that is absent are both `None`:
      the handler passes either on as null. */
  function Ids(e: ResultEntry): (r: Arg)
    ensures r.IdsArg?
    ensures (e.gnip.None? || e.gnip.value.activity.None?) ==> r.activityId.None?
    ensures (e.gnip.None? || e.gnip.value.user.None?) ==> r.userId.None?
    ensures e.gnip.Some? && e.gnip.value.activity.Some? ==> r.activityId == e.gnip.value.activity.value.id
    ensures e.gnip.Some? && e.gnip.value.user.Some? ==> r.userId == e.gnip.value.user.value.id
  {
    var g := e.gnip;
    IdsArg(if g.Some? && g.value.activity.Some? then g.value.activity.value.id else None,
           if g.Some? && g.value.user.Some? then g.value.user.value.id else None)
  }

  /** The labels are read without a guard: an entry without `gnip.labels` throws. */
  predicate HasLabels(e: ResultEntry)
  {
    e.gnip.Some? && e.gnip.value.labels.Some?
  }

  /** Emissions made on behalf of one results entry: each carries the ids and
      the entry, or is the exception that ends the handler. */
  predicate EntryLevel(x: Emission)
  {
    x.Thrown? || (|x.args| == 2 && x.args[1].EntryArg?)
  }

  /** The TypeError raised by reading `gnip.labels.product`: an absent `gnip`
      fails on `labels`, an absent `labels` on `product`. */
  function LabelsError(e: ResultEntry): string
  {
    if e.gnip.None? then "TypeError: Cannot read property 'labels' of undefined"
    else "TypeError: Cannot read property 'product' of undefined"
  }

  /** One results entry: `event:<first key of original>`, then `product:<label>`,
      then `stream_type:<label>`, each with the ids and the entry. */
  function EntryEmissions(e: ResultEntry): (r: seq<Emission>)
    ensures |r| == (if HasLabels(e) then 3 else 2)
    ensures r[0] == Emit(Named("event:" + EventType(e)), [Ids(e), EntryArg(e)])
    ensures HasLabels(e) ==>
              r[1] == Emit(Named("product:" + Label(e.gnip.value.labels.value.product)), [Ids(e), EntryArg(e)]) &&
              r[2] == Emit(Named("stream_type:" + Label(e.gnip.value.labels.value.streamType)), [Ids(e), EntryArg(e)])
    ensures Throws(r) <==> !HasLabels(e)
    ensures ThrowsLast(r)
    ensures forall i :: 0 <= i < |r| ==> EntryLevel(r[i])
  {
    var args := [Ids(e), EntryArg(e)];
    var event := Emit(Named("event:" + EventType(e)), args);
    if !HasLabels(e) then
      [event, Thrown(LabelsError(e))]
    else
      var labels := e.gnip.value.labels.value;
      [event,
       Emit(Named("product:" + Label(labels.product)), args),
       Emit(Named("stream_type:" + Label(labels.streamType)), args)]
  }

  /** `_.each(data.results, ...)`: the entries in order, until one throws. */
  function ResultsEmissions(es: seq<ResultEntry>): (r: seq<Emission>)
    ensures ThrowsLast(r)
    ensures Throws(r) <==> exists i :: 0 <= i < |es| && !HasLabels(es[i])
    ensures forall i :: 0 <= i < |r| ==> EntryLevel(r[i])
    ensures (forall i :: 0 <= i < |es| ==> HasLabels(es[i])) ==> |r| == 3 * |es|
    decreases |es|
  {
    if es == [] then []
    else
      var head := EntryEmissions(es[0]);
      if Throws(head) then head
      else
        EntryThenRest(head, ResultsEmissions(es[1..]));
        UnlabelledInRest(es);
        head + ResultsEmissions(es[1..])
  }

  /** An entry that did not throw, followed by the rest: any throw is the
      rest's, and every emission is still made for an entry. */
  lemma EntryThenRest(head: seq<Emission>, rest: seq<Emission>)
    requires !Throws(head) && ThrowsLast(head) && forall i :: 0 <= i < |head| ==> EntryLevel(head[i])
    requires ThrowsLast(rest) && forall i :: 0 <= i < |rest| ==> EntryLevel(rest[i])
    ensures ThrowsLast(head + rest) && (Throws(head + rest) <==> Throws(rest))
    ensures forall i :: 0 <= i < |head + rest| ==> EntryLevel((head + rest)[i])
  {
    forall i | 0 <= i < |rest| ensures (head + rest)[|head| + i] == rest[i] {
    }
  }

  /** Behind a labelled first entry, an unlabelled entry is one of the rest. */
  lemma UnlabelledInRest(es: seq<ResultEntry>)
    requires |es| > 0 && HasLabels(es[0])
    ensures (exists i :: 0 <= i < |es| && !HasLabels(es[i])) <==>
            (exists i :: 0 <= i < |es[1..]| && !HasLabels(es[1..][i]))
  {
    if exists i :: 0 <= i < |es| && !HasLabels(es[i]) {
      var i :| 0 <= i < |es| && !HasLabels(es[i]);
      assert es[1..][i - 1] == es[i];
    }
  }

  /** The entries before the first one without labels publish all their
      events, in order; that entry publishes its `event:` and then throws, and
      the entries after it publish nothing. */
  lemma {:induction false} ResultsStopAtFirstUnlabelled(es: seq<ResultEntry>, k: nat)
    requires k < |es| && !HasLabels(es[k]) && AllLabelled(es[..k])
    ensures ResultsEmissions(es) == EntriesInOrder(es[..k]) + EntryEmissions(es[k])
    decreases k
  {
    if k == 0 {
      ResultsHeadThrows(es);
      assert es[..0] == [];
    } else {
      ResultsUnfold(es);
      PrefixUnfold(es, k);
      assert es[1..][k - 1] == es[k];
      ResultsStopAtFirstUnlabelled(es[1..], k - 1);
      Regroup(ResultsEmissions(es), ResultsEmissions(es[1..]), EntriesInOrder(es[..k]),
              EntryEmissions(es[0]), EntriesInOrder(es[1..][..k - 1]), EntryEmissions(es[k]));
    }
  }

  /** Moving the first block of a run from the rest into the prefix. */
  lemma Regroup<T>(whole: seq<T>, rest: seq<T>, prefix: seq<T>, first: seq<T>, middle: seq<T>, last: seq<T>)
    requires whole == first + rest && rest == middle + last && prefix == first + middle
    ensures whole == prefix + last
  {
    assert first + (middle + last) == (first + middle) + last;
  }

  /** An entry without labels ends the handler. */
  lemma ResultsHeadThrows(es: seq<ResultEntry>)
    requires |es| > 0 && !HasLabels(es[0])
    ensures ResultsEmissions(es) == EntryEmissions(es[0])
  {
  }

  /** A labelled prefix unfolds into its first entry and a labelled rest. */
  lemma PrefixUnfold(es: seq<ResultEntry>, k: nat)
    requires 0 < k <= |es| && AllLabelled(es[..k])
    ensures HasLabels(es[0]) && AllLabelled(es[1..][..k - 1])
    ensures EntriesInOrder(es[..k]) == EntryEmissions(es[0]) + EntriesInOrder(es[1..][..k - 1])
  {
    assert es[..k][0] == es[0];
    assert es[1..][..k - 1] == es[..k][1..];
  }

  /** An entry that carries its labels lets the next entry run. */
  lemma ResultsUnfold(es: seq<ResultEntry>)
    requires |es| > 0 && HasLabels(es[0])
    ensures ResultsEmissions(es) == EntryEmissions(es[0]) + ResultsEmissions(es[1..])
    ensures |EntryEmissions(es[0])| == 3
  {
  }

  predicate AllLabelled(es: seq<ResultEntry>)
  {
    forall j :: 0 <= j < |es| ==> HasLabels(es[j])
  }

  /** Every entry's events, entry after entry. */
  function EntriesInOrder(es: seq<ResultEntry>): seq<Emission>
    decreases |es|
  {
    if es == [] then [] else EntryEmissions(es[0]) + EntriesInOrder(es[1..])
  }

  /** When every entry carries its labels, the handler publishes each entry's
      events in full, in the order of the entries. */
  lemma {:induction false} ResultsFanOut(es: seq<ResultEntry>)
    requires AllLabelled(es)
    ensures ResultsEmissions(es) == EntriesInOrder(es)
    decreases |es|
  {
    if es != [] {
      ResultsUnfold(es);
      var tail := es[1..];
      assert AllLabelled(tail) by {
        forall j | 0 <= j < |tail| ensures HasLabels(tail[j]) {
          assert tail[j] == es[j + 1];
        }
      }
      ResultsFanOut(tail);
    }
  }

  /** With labels on every entry, entry `i` owns emissions `3i` to `3i + 2`. */
  lemma {:induction false} EntrySlots(es: seq<ResultEntry>, i: nat, m: nat)
    requires AllLabelled(es)
    requires i < |es| && m < 3
    ensures |EntriesInOrder(es)| == 3 * |es|
    ensures EntriesInOrder(es)[3 * i + m] == EntryEmissions(es[i])[m]
    decreases |es|
  {
    var tail := es[1..];
    assert AllLabelled(tail) by {
      forall j | 0 <= j < |tail| ensures HasLabels(tail[j]) {
        assert tail[j] == es[j + 1];
      }
    }
    var head := EntryEmissions(es[0]);
    assert |head| == 3 && EntriesInOrder(es) == head + EntriesInOrder(tail);
    if |tail| > 0 {
      EntrySlots(tail, if i > 0 then i - 1 else 0, m);
    }
    if i > 0 {
      assert tail[i - 1] == es[i];
      assert EntriesInOrder(es)[3 * i + m] == EntriesInOrder(tail)[3 * (i - 1) + m];
    }
  }

  predicate IsFailure(rec: Record)
  {
    rec.summary.Some? && rec.summary.value.status == Some("failure")
  }

  const FailureName: EventName := Named("failure")

  /** One compliance record: `data`, then `summary`, then `failure` when the
      summary's status is "failure", then each entry's events. Reading the
      status of an absent summary throws. */
  function RecordEmissions(rec: Record): (r: seq<Emission>)
    ensures |r| >= 2
    ensures r[0] == Emit(Named("data"), [RecordArg(rec)])
    ensures r[1] == Emit(Named("summary"), [SummaryArg(rec.summary)])
    ensures Emit(FailureName, [RecordArg(rec)]) in r <==> IsFailure(rec)
    ensures IsFailure(rec) ==> r[2] == Emit(FailureName, [RecordArg(rec)])
    ensures rec.summary.Some? ==> r[(if IsFailure(rec) then 3 else 2)..] == ResultsEmissions(rec.results)
    ensures rec.summary.None? ==> |r| == 3
    ensures ThrowsLast(r)
    ensures Throws(r) <==> rec.summary.None? || exists i :: 0 <= i < |rec.results| && !HasLabels(rec.results[i])
  {
    var head := [Emit(Named("data"), [RecordArg(rec)]), Emit(Named("summary"), [SummaryArg(rec.summary)])];
    if rec.summary.None? then
      head + [Thrown("TypeError: Cannot read property 'status' of undefined")]
    else
      var failure := if IsFailure(rec) then [Emit(FailureName, [RecordArg(rec)])] else [];
      var tail := ResultsEmissions(rec.results);
      RecordParts(head, failure, tail, Emit(FailureName, [RecordArg(rec)]));
      head + failure + tail
  }

  /** The record-level emissions come before the entries' ones: a throw can
      only come from the entries, and the one-argument `failure` emission is
      never an entry's. */
  lemma RecordParts(head: seq<Emission>, failure: seq<Emission>, tail: seq<Emission>, f: Emission)
    requires |head| == 2 && !head[0].Thrown? && !head[1].Thrown? && f !in head
    requires failure == [] || failure == [f]
    requires f.Emit? && |f.args| == 1
    requires ThrowsLast(tail) && forall i :: 0 <= i < |tail| ==> EntryLevel(tail[i])
    ensures ThrowsLast(head + failure + tail)
    ensures Throws(head + failure + tail) <==> Throws(tail)
    ensures f in head + failure + tail <==> failure == [f]
  {
    var r := head + failure + tail;
    var n := |head + failure|;
    forall i | 0 <= i < |tail| ensures r[n + i] == tail[i] {
    }
  }

  /** A record whose summary is present and whose entries all carry labels
      yields exactly 2 + (1 if failed) + 3 per entry emissions, none thrown,
      and after the head come every entry's events, entry after entry. */
  lemma RecordFanOutSize(rec: Record)
    requires rec.summary.Some?
    requires forall i :: 0 <= i < |rec.results| ==> HasLabels(rec.results[i])
    ensures |RecordEmissions(rec)| == 2 + (if IsFailure(rec) then 1 else 0) + 3 * |rec.results|
    ensures !Throws(RecordEmissions(rec))
    ensures RecordEmissions(rec)[(if IsFailure(rec) then 3 else 2)..] == EntriesInOrder(rec.results)
  {
    assert AllLabelled(rec.results);
    ResultsFanOut(rec.results);
  }

  /** A non-200 response is reported with its code. */
  function StatusError(status: nat): Arg
  {
    CodedArg(status, "Status is not 200. Returned " + Decimal(status))
  }

  class ComplianceStream {
    const options: Options
    const platform: string
    const query: Query
    var active: bool
    var piping: bool
    var requests: nat
    var events: seq<Emission>

    ghost function State(): Session.State
      reads this
    {
      Session.State(active, piping, requests, events)
    }

    ghost predicate Valid()
      reads this
    {
      Session.Valid(State())
    }

    /** Only Twitter is supported: the platform is forced, whatever was passed. */
    constructor (options: Options, query: Query)
      ensures this.options == options && platform == "twitter" && this.query == query
      ensures Valid() && State() == Session.Idle
    {
      this.options := options;
      platform := "twitter";
      this.query := query;
      active, piping, requests, events := false, false, 0, [];
    }

    /** The constructor: it builds the query and throws, before any request can
        be issued, when the window is refused. */
    static method Open(options: Options, query: Query, now: int) returns (r: Result<ComplianceStream, QueryError>)
      ensures r.Failure? <==> BuildQuery(query, now).Failure?
      ensures r.Failure? ==> r.error == BuildQuery(query, now).error
      ensures r.Success? ==> fresh(r.value) && r.value.Valid() && r.value.State() == Session.Idle
      ensures r.Success? ==> r.value.options == options && r.value.platform == "twitter"
      ensures r.Success? ==> r.value.query == BuildQuery(query, now).value
    {
      var built := BuildQuery(query, now);
      if built.Failure? {
        return Failure(built.error);
      }
      var stream := new ComplianceStream(options, built.value);
      return Success(stream);
    }

    method Start() returns (thrown: Option<ConfigError>)
      requires Valid()
      modifies this
      ensures Valid()
      ensures thrown == IdentityCheck(options)
      ensures State() == Session.Start(old(State()), thrown)
    {
      thrown := IdentityCheck(options);
      if thrown.None? {
        active, piping := true, false;
        requests := requests + 1;
      }
    }

    method OnResponse(status: nat, encoding: Option<string>)
      requires Valid()
      modifies this
      ensures Valid()
      ensures State() == Session.Respond(old(State()), status, encoding, StatusError(status))
    {
      if active {
        if status != 200 {
          events := events + [ErrorEvent(StatusError(status))];
        }
        piping := encoding == Some("gzip");
        if !piping {
          events := events + [ErrorEvent(EncodingError(encoding))];
        }
      }
    }

    method OnRecord(rec: Record)
      requires Valid()
      modifies this
      ensures Valid()
      ensures State() == Session.Deliver(old(State()), RecordEmissions(rec))
    {
      if active && piping {
        var emitted := RecordEmissions(rec);
        events := events + emitted;
        piping := !Throws(emitted);
      }
    }

    method End()
      requires Valid()
      modifies this
      ensures Valid()
      ensures State() == Session.End(old(State()))
    {
      if active {
        active, piping := false, false;
        events := events + [EndEvent];
      }
    }
  }
}
