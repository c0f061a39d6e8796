/** The lifecycle shared by the four stream clients. Each client keeps one
    request field (`_req`): `start` runs its guards and then stores a new
    request; the request's `response` handler reports the status and the
    encoding and, for a gzip body, wires the decoder whose records are then
    classified one at a time; `end` aborts the request, clears the field and
    emits `end`. The clients' methods are specified by these functions. */
module Session {
  import opened Gnip
  import opened Events

  /** `active`: a request is stored in `_req`. `piping`: its gzip body is wired
      to the decoder, so decoded records are published. `requests`: how many
      requests were issued. `events`: every emission so far, in order. */
  datatype State = State(active: bool, piping: bool, requests: nat, events: seq<Emission>)

  const Idle: State := State(false, false, 0, [])

  ghost predicate Valid(s: State)
  {
    s.piping ==> s.active
  }

  /** `start` (or `nextPage`) once its guard has been evaluated: a failing guard
      throws before anything changes; otherwise a new request replaces `_req`. */
  function Start(s: State, guard: Option<ConfigError>): (r: State)
    ensures guard.Some? ==> r == s
    ensures guard.None? ==> r.active && !r.piping && r.requests == s.requests + 1
    ensures r.events == s.events
  {
    if guard.Some? then s
    else s.(active := true, piping := false, requests := s.requests + 1)
  }

  /** The `response` handler: a non-200 status emits `statusError` and carries
      on; a gzip body is piped to the decoder, any other encoding emits an error
      and publishes no record. An aborted request delivers nothing. */
  function Respond(s: State, status: nat, encoding: Option<string>, statusError: Arg): (r: State)
    ensures !s.active ==> r == s
    ensures r.active == s.active && r.requests == s.requests
    ensures s.active ==> (r.piping <==> encoding == Some("gzip"))
    ensures |r.events| >= |s.events| && r.events[..|s.events|] == s.events
    ensures s.active ==>
              |r.events| == |s.events| + (if status != 200 then 1 else 0) + (if encoding == Some("gzip") then 0 else 1)
    ensures s.active && status != 200 ==> r.events[|s.events|] == ErrorEvent(statusError)
    ensures s.active && encoding != Some("gzip") ==> r.events[|r.events| - 1] == ErrorEvent(EncodingError(encoding))
  {
    if !s.active then s
    else
      var gzip := encoding == Some("gzip");
      s.(piping := gzip,
         events := s.events
                   + (if status != 200 then [ErrorEvent(statusError)] else [])
                   + (if gzip then [] else [ErrorEvent(EncodingError(encoding))]))
  }

  /** One decoded record reaches the classifier, which publishes `emissions`;
      an exception thrown while classifying breaks the pipe. */
  function Deliver(s: State, emissions: seq<Emission>): (r: State)
    ensures !(s.active && s.piping) ==> r == s
    ensures s.active && s.piping ==> r.events == s.events + emissions && (r.piping <==> !Throws(emissions))
    ensures r.active == s.active && r.requests == s.requests
  {
    if s.active && s.piping then s.(piping := !Throws(emissions), events := s.events + emissions)
    else s
  }

  /** `end`: only an active request is aborted, cleared and reported. */
  function End(s: State): (r: State)
    ensures !r.active && r.requests == s.requests
    ensures s.active ==> !r.piping
    ensures r.events == s.events + (if s.active then [EndEvent] else [])
  {
    if s.active then s.(active := false, piping := false, events := s.events + [EndEvent])
    else s
  }

  /** Everything that can happen to a client, in the order it happens. */
  datatype Step =
    | StartStep(guard: Option<ConfigError>)
    | ResponseStep(status: nat, encoding: Option<string>, statusError: Arg)
    | RecordStep(emissions: seq<Emission>)
    | EndStep

  function Apply(s: State, step: Step): State
  {
    match step
    case StartStep(guard) => Start(s, guard)
    case ResponseStep(status, encoding, statusError) => Respond(s, status, encoding, statusError)
    case RecordStep(emissions) => Deliver(s, emissions)
    case EndStep => End(s)
  }

  function Run(s: State, steps: seq<Step>): State
    decreases |steps|
  {
    if steps == [] then s else Run(Apply(s, steps[0]), steps[1..])
  }

  /** Every step keeps a decoder only behind an active request. */
  lemma {:induction false} RunKeepsValid(s: State, steps: seq<Step>)
    requires Valid(s)
    ensures Valid(Run(s, steps))
    decreases |steps|
  {
    if steps != [] {
      RunKeepsValid(Apply(s, steps[0]), steps[1..]);
    }
  }

  /** A failing guard issues no request and changes nothing: whatever follows
      behaves as if the failed `start` had never been called. */
  lemma GuardFailureIssuesNothing(s: State, guard: Option<ConfigError>, steps: seq<Step>)
    requires guard.Some?
    ensures Run(s, [StartStep(guard)] + steps) == Run(s, steps)
  {
    assert ([StartStep(guard)] + steps)[1..] == steps;
  }

  /** `end` emits `end` exactly when a request is active, and a second `end` is
      a no-op. */
  lemma EndIsIdempotent(s: State)
    requires Valid(s)
    ensures End(End(s)) == End(s)
    ensures End(s).events == s.events + (if s.active then [EndEvent] else [])
    ensures !End(s).active && !End(s).piping
  {
  }

  /** After `end`, nothing at all is emitted or issued until the next `start`. */
  lemma {:induction false} SilentUntilStart(s: State, steps: seq<Step>)
    requires !s.active
    requires forall i :: 0 <= i < |steps| ==> !steps[i].StartStep?
    ensures Run(s, steps) == s
    decreases |steps|
  {
    if steps != [] {
      assert Apply(s, steps[0]) == s;
      SilentUntilStart(s, steps[1..]);
    }
  }

  /** While no decoder is wired (a non-gzip response, or a response not yet
      received), decoded records publish nothing. */
  lemma {:induction false} NoRecordsWithoutDecoder(s: State, steps: seq<Step>)
    requires !s.piping
    requires forall i :: 0 <= i < |steps| ==> steps[i].RecordStep?
    ensures Run(s, steps) == s
    decreases |steps|
  {
    if steps != [] {
      assert Apply(s, steps[0]) == s;
      NoRecordsWithoutDecoder(s, steps[1..]);
    }
  }

  function RecordSteps(chunks: seq<seq<Emission>>): (r: seq<Step>)
    ensures |r| == |chunks|
    ensures forall i :: 0 <= i < |r| ==> r[i] == RecordStep(chunks[i])
  {
    seq(|chunks|, i requires 0 <= i < |chunks| => RecordStep(chunks[i]))
  }

  /** Records that classify without an exception are published in arrival
      order, each record's emissions kept together. */
  lemma {:induction false} RecordsInOrder(s: State, chunks: seq<seq<Emission>>)
    requires s.active && s.piping
    requires forall i :: 0 <= i < |chunks| ==> !Throws(chunks[i])
    ensures Run(s, RecordSteps(chunks)) == s.(events := s.events + Concat(chunks))
    decreases |chunks|
  {
    if chunks != [] {
      var steps, tail := RecordSteps(chunks), chunks[1..];
      var s' := s.(events := s.events + chunks[0]);
      assert !Throws(chunks[0]);
      assert steps[0] == RecordStep(chunks[0]);
      assert Apply(s, steps[0]) == Deliver(s, chunks[0]) == s';
      assert steps[1..] == RecordSteps(tail);
      assert Run(s, steps) == Run(s', RecordSteps(tail));
      assert forall i :: 0 <= i < |tail| ==> !Throws(tail[i]) by {
        forall i | 0 <= i < |tail| ensures !Throws(tail[i]) {
          assert tail[i] == chunks[i + 1];
        }
      }
      RecordsInOrder(s', tail);
      assert Concat(chunks) == chunks[0] + Concat(tail);
      assert (s.events + chunks[0]) + Concat(tail) == s.events + (chunks[0] + Concat(tail));
    }
  }
}
