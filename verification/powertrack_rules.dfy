/** The PowerTrack rules manager (lib/gnippy/rules/powertrack_rules.js).
    `add` and `remove` send a rule list in front slices of the batch size, each
    slice only after the previous one succeeded, and report the first failure
    or the final success once; `list` fetches the rule set. Every reply of the
    transport is taken from a sequence of replies, consumed in order; when it
    runs out, the last request sent is still awaiting its reply. */
module PowertrackRules {
  import opened Gnip

  datatype Rule = Rule(value: string, tag: Option<string>)

  /** The first argument of `add` and `remove`: a single rule object, or an array. */
  datatype RuleInput = OneRule(rule: Rule) | RuleList(rules: seq<Rule>)

  /** `_.flatten([rules])`: the `rules` array of a request body. */
  function Flatten(input: RuleInput): seq<Rule>
  {
    match input
    case OneRule(r) => [r]
    case RuleList(rs) => rs
  }

  /** What the transport reports for one request: a response, with its status
      and its body as string concatenation renders it, or a transport error. */
  datatype Reply = Response(status: nat, body: string) | TransportError(message: string)

  predicate Succeeded(reply: Reply)
  {
    reply.Response? && 200 <= reply.status <= 299
  }

  datatype HttpMethod = Get | Post | Delete

  /** One request issued: its method and its JSON body `{rules: [...]}`, if any. */
  datatype Request = Request(verb: HttpMethod, json: Option<seq<Rule>>)

  /** The shared `request_options` object, which every call updates in place. */
  datatype RequestOptions = RequestOptions(verb: Option<HttpMethod>, json: Option<seq<Rule>>)

  /** Values handed to a callback or emitted. */
  datatype Payload =
    | Flag(flag: bool)
    | Message(text: string)
    | Coded(code: nat, message: string)
    | ErrorObject(message: string)
    | ParsedBody(body: string)
    | NoRules

  /** `next(err, result)` (an absent argument is `None`), `emit(name, payload)`,
      or an exception that escapes to the process. */
  datatype Notice =
    | Callback(err: Option<Payload>, result: Option<Payload>)
    | Emit(name: string, payload: Payload)
    | Thrown(reason: string)

  /** `options.batch_size || 1000` */
  function BatchSize(option: nat): (b: nat)
    ensures b >= 1
    ensures option > 0 ==> b == option
    ensures option == 0 ==> b == 1000
  {
    if option == 0 then 1000 else option
  }

  // ---------------------------------------------------------------------------
  // The partition of a rule list into requests.

  /** The bodies of the requests a fully successful chain sends: while at least
      `b` rules remain (`length >= batch_size`), the first `b` go out and the
      rest is deferred; the remainder, shorter than `b` and possibly empty, is
      the last request. */
  function Batches(rules: seq<Rule>, b: nat): (r: seq<seq<Rule>>)
    requires b >= 1
    ensures |r| >= 1
    ensures forall i :: 0 <= i < |r| ==> |r[i]| <= b
    decreases |rules|
  {
    if |rules| >= b then [rules[..b]] + Batches(rules[b..], b) else [rules]
  }

  /** The batches, joined in order, give back the rule list. */
  lemma {:induction false} BatchesJoin(rules: seq<Rule>, b: nat)
    requires b >= 1
    ensures Concat(Batches(rules, b)) == rules
    decreases |rules|
  {
    if |rules| >= b {
      BatchesJoin(rules[b..], b);
      assert rules[..b] + rules[b..] == rules;
    }
  }

  /** Every batch but the last holds exactly `b` rules; the last holds fewer. */
  lemma {:induction false} BatchesSizes(rules: seq<Rule>, b: nat)
    requires b >= 1
    ensures |Batches(rules, b)| >= 1
    ensures forall i :: 0 <= i < |Batches(rules, b)| - 1 ==> |Batches(rules, b)[i]| == b
    ensures |Batches(rules, b)[|Batches(rules, b)| - 1]| < b
    decreases |rules|
  {
    if |rules| >= b {
      BatchesSizes(rules[b..], b);
      var rest := Batches(rules[b..], b);
      assert Batches(rules, b) == [rules[..b]] + rest;
    }
  }

  lemma MulAtLeast(k: int, b: nat)
    requires k >= 1
    ensures k * b >= b
  {
    assert k * b == (k - 1) * b + b;
  }

  lemma DivUnique(n: nat, b: nat, q: nat, m: nat)
    requires b >= 1 && m < b && n == q * b + m
    ensures n / b == q && n % b == m
  {
    var q', m' := n / b, n % b;
    assert n == q' * b + m';
    if q' < q {
      assert (q - q') * b == q * b - q' * b;
      MulAtLeast(q - q', b);
    } else if q' > q {
      assert (q' - q) * b == q' * b - q * b;
      MulAtLeast(q' - q, b);
    }
  }

  /** n rules take floor(n / b) + 1 requests. */
  lemma {:induction false} BatchesCount(rules: seq<Rule>, b: nat)
    requires b >= 1
    ensures |Batches(rules, b)| == |rules| / b + 1
    decreases |rules|
  {
    if |rules| >= b {
      BatchesCount(rules[b..], b);
      var n := |rules| - b;
      DivUnique(|rules|, b, n / b + 1, n % b);
    } else {
      DivUnique(|rules|, b, 0, |rules|);
    }
  }

  /** When `b` divides the number of rules, the chain ends with an empty request. */
  lemma {:induction false} TrailingEmptyBatch(rules: seq<Rule>, b: nat)
    requires b >= 1 && |rules| % b == 0
    ensures Batches(rules, b)[|Batches(rules, b)| - 1] == []
    decreases |rules|
  {
    if |rules| >= b {
      var n := |rules| - b;
      DivUnique(|rules|, b, n / b + 1, n % b);
      TrailingEmptyBatch(rules[b..], b);
      assert Batches(rules, b) == [rules[..b]] + Batches(rules[b..], b);
    } else {
      DivUnique(|rules|, b, 0, |rules|);
    }
  }

  // ---------------------------------------------------------------------------
  // The callback chain.

  datatype Op = AddOp | RemoveOp

  /** The message of a failed `add` response. */
  function AddErrorMessage(status: nat, body: string): (r: string)
    ensures status == 413 ==>
              r == "Your request is too large, try breaking your requests into smaller chunks."
    ensures status == 422 ==> r == "Your rule is invalid. Response Code: 422; Message: " + body
    ensures status != 413 && status != 422 ==> r == AddRefused + Decimal(status)
  {
    if status == 413 then "Your request is too large, try breaking your requests into smaller chunks."
    else if status == 422 then
      assert Decimal(422) == "422" by {
        assert Decimal(4) == "4";
        assert Decimal(42) == "42";
      }
      "Your rule is invalid. Response Code: " + Decimal(status) + "; Message: " + body
    else AddRefused + Decimal(status)
  }

  const AddRefused: string := "New rules could not be added. Response Code: "

  /** The 422 message carries the response body at its end, and the generic
      message carries the status code at its end, which reads back as that code. */
  lemma AddErrorMessageCarries(status: nat, body: string)
    ensures status == 422 ==>
              var m := AddErrorMessage(status, body);
              |m| >= |body| && m[|m| - |body|..] == body
    ensures status != 413 && status != 422 ==>
              var m := AddErrorMessage(status, body);
              |m| > |AddRefused| && m[..|AddRefused|] == AddRefused &&
              DigitsValue(m[|AddRefused|..]) == status
  {
    var m := AddErrorMessage(status, body);
    if status == 422 {
      var p := "Your rule is invalid. Response Code: 422; Message: ";
      assert m == p + body;
      assert m[|m| - |body|..] == body;
    } else if status != 413 {
      DecimalRoundTrip(status);
      assert m[..|AddRefused|] == AddRefused;
      assert m[|AddRefused|..] == Decimal(status);
    }
  }

  function RemoveError(status: nat): Payload
  {
    Coded(status, "Rules could not be removed. Response Code: " + Decimal(status))
  }

  /** `remove` installs no transport `error` handler, so a transport error
      escapes to the process. */
  predicate Escapes(op: Op, reply: Reply)
  {
    op == RemoveOp && reply.TransportError?
  }

  /** `next(null, true)`, or `emit('success', true)` without a callback. */
  function SuccessNotice(callback: bool): Notice
  {
    if callback then Callback(None, Some(Flag(true))) else Emit("success", Flag(true))
  }

  /** A failed `add` request. With the caller's own callback (`last`), an
      unlistened failure emits `request_too_large` (413) or
      `unprocessable_entity` (422) before `error`; through the wrapping callback
      of a batch that is not the last, it is one `error` with the bare value. */
  function AddFailure(reply: Reply, last: bool, callback: bool): (r: seq<Notice>)
    requires !Succeeded(reply)
    ensures 1 <= |r| <= 2
    ensures |r| == 2 <==> !callback && last && reply.Response? && (reply.status == 413 || reply.status == 422)
    ensures !callback ==>
              r[|r| - 1].Emit? && r[|r| - 1].name == "error" &&
              forall i :: 0 <= i < |r| - 1 ==> r[i].Emit? && r[i].name != "error"
    ensures reply.Response? && callback ==>
              r == [Callback(Some(Message(AddErrorMessage(reply.status, reply.body))), None)]
    ensures reply.Response? && !callback ==>
              r[|r| - 1] == Emit("error", Message(AddErrorMessage(reply.status, reply.body)))
    ensures |r| == 2 && reply.status == 413 ==>
              r[0] == Emit("request_too_large", Message(AddErrorMessage(413, reply.body)))
    ensures |r| == 2 && reply.status == 422 ==>
              r[0] == Emit("unprocessable_entity", Message("Your rule is invalid. Message: " + reply.body))
    ensures reply.TransportError? && callback ==> r == [Callback(Some(ErrorObject(reply.message)), None)]
    ensures reply.TransportError? && !callback ==>
              r == [Emit("error", if last then Message(reply.message) else ErrorObject(reply.message))]
  {
    match reply
    case Response(status, body) =>
      var msg := Message(AddErrorMessage(status, body));
      if callback then [Callback(Some(msg), None)]
      else if !last then [Emit("error", msg)]
      else if status == 413 then [Emit("request_too_large", msg), Emit("error", msg)]
      else if status == 422 then
        [Emit("unprocessable_entity", Message("Your rule is invalid. Message: " + body)), Emit("error", msg)]
      else [Emit("error", msg)]
    case TransportError(m) =>
      if callback then [Callback(Some(ErrorObject(m)), None)]
      else if last then [Emit("error", Message(m))]
      else [Emit("error", ErrorObject(m))]
  }

  /** A failed `remove` request: the coded error, to the callback or as `error`,
      or an escaping transport error. */
  function RemoveFailure(reply: Reply, callback: bool): (r: seq<Notice>)
    requires !Succeeded(reply)
    ensures |r| == 1
    ensures reply.TransportError? ==> r[0].Thrown?
    ensures reply.Response? ==> (r[0].Callback? <==> callback)
    ensures reply.Response? && callback ==> r[0] == Callback(Some(RemoveError(reply.status)), None)
    ensures reply.Response? && !callback ==> r[0] == Emit("error", RemoveError(reply.status))
  {
    match reply
    case Response(status, _) =>
      if callback then [Callback(Some(RemoveError(status)), None)] else [Emit("error", RemoveError(status))]
    case TransportError(m) => [Thrown("Unhandled 'error' event: " + m)]
  }

  /** What the caller observes when a request ends the chain: a success on the
      last request, or any failure. `last` says whether this request was sent
      with the caller's own callback (the last request) or with the wrapping
      callback that would have sent the rest. */
  function Outcome(op: Op, reply: Reply, last: bool, callback: bool): (r: seq<Notice>)
    requires last || !Succeeded(reply)
    ensures |r| >= 1
    ensures (!last || callback) ==> |r| == 1
    ensures Succeeded(reply) ==> r == [SuccessNotice(callback)]
    ensures Escapes(op, reply) ==> |r| == 1 && r[0].Thrown?
    ensures callback && !Succeeded(reply) && !Escapes(op, reply) ==>
              |r| == 1 && r[0].Callback? && r[0].err.Some? && r[0].result.None?
    ensures !callback && !Succeeded(reply) && !Escapes(op, reply) ==>
              r[|r| - 1].Emit? && r[|r| - 1].name == "error" &&
              forall i :: 0 <= i < |r| - 1 ==> r[i].Emit? && r[i].name != "error"
  {
    if Succeeded(reply) then [SuccessNotice(callback)]
    else if op == AddOp then AddFailure(reply, last, callback)
    else RemoveFailure(reply, callback)
  }

  /** The requests a chain sent, and what the caller observed. */
  datatype ChainRun = ChainRun(sent: seq<seq<Rule>>, notices: seq<Notice>)

  /** One call of `add` or `remove` on `pending`, followed by the calls its
      callbacks make: the request is sent; if `pending` is an array with at least
      `b` rules it carries only the first `b`, and a success sends the rest the
      same way. `isArray` is false for a single rule object, whose `length` is
      undefined, so it is never split. */
  function Chain(op: Op, pending: seq<Rule>, isArray: bool, b: nat, replies: seq<Reply>, callback: bool): (r: ChainRun)
    requires b >= 1
    ensures 1 <= |r.sent| <= |replies| + 1
    ensures r.notices == [] <==> |r.sent| == |replies| + 1
    decreases |pending|
  {
    var last := !isArray || |pending| < b;
    var batch := if last then pending else pending[..b];
    if replies == [] then ChainRun([batch], [])
    else if Succeeded(replies[0]) && !last then
      var rest := Chain(op, pending[b..], true, b, replies[1..], callback);
      ChainRun([batch] + rest.sent, rest.notices)
    else ChainRun([batch], Outcome(op, replies[0], last, callback))
  }

  /** One request of the chain: what it carries, and what follows its reply. */
  lemma ChainStep(op: Op, pending: seq<Rule>, isArray: bool, b: nat, replies: seq<Reply>, callback: bool)
    requires b >= 1
    ensures var last := !isArray || |pending| < b;
            var batch := if last then pending else pending[..b];
            var run := Chain(op, pending, isArray, b, replies, callback);
            (replies == [] ==> run == ChainRun([batch], [])) &&
            (replies != [] && Succeeded(replies[0]) && !last ==>
               run.sent == [batch] + Chain(op, pending[b..], true, b, replies[1..], callback).sent &&
               run.notices == Chain(op, pending[b..], true, b, replies[1..], callback).notices) &&
            (replies != [] && !(Succeeded(replies[0]) && !last) ==>
               run == ChainRun([batch], Outcome(op, replies[0], last, callback)))
  {
  }

  function Run(op: Op, input: RuleInput, b: nat, replies: seq<Reply>, callback: bool): ChainRun
    requires b >= 1
  {
    Chain(op, Flatten(input), input.RuleList?, b, replies, callback)
  }

  /** A single rule object is sent alone, in one request, whatever the batch size. */
  lemma SingleRuleOneRequest(op: Op, r: Rule, b: nat, replies: seq<Reply>, callback: bool)
    requires b >= 1
    ensures Run(op, OneRule(r), b, replies, callback).sent == [[r]]
  {
  }

  /** The requests sent are the first batches of the partition, at least one,
      and a request after the first is sent only when the reply to the one
      before it was a success. */
  lemma {:induction false} ChainFollowsBatches(op: Op, rules: seq<Rule>, b: nat, replies: seq<Reply>, callback: bool)
    requires b >= 1
    ensures var run := Chain(op, rules, true, b, replies, callback);
            1 <= |run.sent| <= |Batches(rules, b)| &&
            run.sent == Batches(rules, b)[..|run.sent|] &&
            |run.sent| <= |replies| + 1 &&
            forall i :: 0 <= i < |run.sent| - 1 ==> Succeeded(replies[i])
    decreases |rules|
  {
    if replies != [] && Succeeded(replies[0]) && |rules| >= b {
      ChainFollowsBatches(op, rules[b..], b, replies[1..], callback);
      var rest := Chain(op, rules[b..], true, b, replies[1..], callback);
      assert Batches(rules, b) == [rules[..b]] + Batches(rules[b..], b);
      assert Chain(op, rules, true, b, replies, callback).sent == [rules[..b]] + rest.sent;
    }
  }

  /** If every request succeeds, the whole partition is sent, so the rule list
      goes out whole and in order, and success is reported once, from the last
      request. */
  lemma {:induction false} ChainAllSucceed(op: Op, rules: seq<Rule>, b: nat, replies: seq<Reply>, callback: bool)
    requires b >= 1
    requires |replies| >= |Batches(rules, b)|
    requires forall i :: 0 <= i < |Batches(rules, b)| ==> Succeeded(replies[i])
    ensures Chain(op, rules, true, b, replies, callback).sent == Batches(rules, b)
    ensures Chain(op, rules, true, b, replies, callback).notices ==
              [SuccessNotice(callback)]
    decreases |rules|
  {
    assert Succeeded(replies[0]);
    if |rules| >= b {
      var bs := Batches(rules, b);
      assert bs == [rules[..b]] + Batches(rules[b..], b);
      forall i | 0 <= i < |Batches(rules[b..], b)|
        ensures Succeeded(replies[1..][i])
      {
        assert bs[i + 1] == Batches(rules[b..], b)[i];
      }
      ChainAllSucceed(op, rules[b..], b, replies[1..], callback);
    }
  }

  /** The first failure, at request `k`, ends the chain: exactly `k + 1`
      requests were sent and the caller observes that failure alone. */
  lemma {:induction false} ChainStopsAtFirstFailure(op: Op, rules: seq<Rule>, b: nat, replies: seq<Reply>, callback: bool, k: nat)
    requires b >= 1
    requires k < |Batches(rules, b)| && k < |replies|
    requires forall i :: 0 <= i < k ==> Succeeded(replies[i])
    requires !Succeeded(replies[k])
    ensures |Chain(op, rules, true, b, replies, callback).sent| == k + 1
    ensures Chain(op, rules, true, b, replies, callback).notices ==
              Outcome(op, replies[k], k == |Batches(rules, b)| - 1, callback)
    decreases |rules|
  {
    if k > 0 {
      assert |rules| >= b;
      var bs := Batches(rules, b);
      assert bs == [rules[..b]] + Batches(rules[b..], b);
      assert replies[1..][k - 1] == replies[k];
      ChainStopsAtFirstFailure(op, rules[b..], b, replies[1..], callback, k - 1);
    } else if |rules| >= b {
      assert Batches(rules, b) == [rules[..b]] + Batches(rules[b..], b);
      BatchesSizes(rules[b..], b);
    }
  }

  /** While replies are outstanding, nothing is reported: after `k` successes
      with more batches to go, `k + 1` requests are out and the caller has heard
      nothing. */
  lemma {:induction false} ChainAwaiting(op: Op, rules: seq<Rule>, b: nat, replies: seq<Reply>, callback: bool)
    requires b >= 1
    requires |replies| < |Batches(rules, b)|
    requires forall i :: 0 <= i < |replies| ==> Succeeded(replies[i])
    ensures |Chain(op, rules, true, b, replies, callback).sent| == |replies| + 1
    ensures Chain(op, rules, true, b, replies, callback).notices == []
    decreases |rules|
  {
    if replies != [] {
      assert |rules| >= b;
      var bs := Batches(rules, b);
      assert bs == [rules[..b]] + Batches(rules[b..], b);
      ChainAwaiting(op, rules[b..], b, replies[1..], callback);
    }
  }

  /** With a callback, the caller's callback runs at most once per chain. When
      the chain has ended it runs exactly once, except after a transport error
      on `remove`, which escapes instead. */
  lemma {:induction false} CallbackAtMostOnce(op: Op, pending: seq<Rule>, isArray: bool, b: nat, replies: seq<Reply>)
    requires b >= 1
    ensures |Chain(op, pending, isArray, b, replies, true).notices| <= 1
    ensures |Chain(op, pending, isArray, b, replies, true).sent| <= |replies| ==>
              |Chain(op, pending, isArray, b, replies, true).notices| == 1
    ensures |Chain(op, pending, isArray, b, replies, true).sent| <= |replies| ==>
              Chain(op, pending, isArray, b, replies, true).notices[0].Callback? ||
              (op == RemoveOp && Chain(op, pending, isArray, b, replies, true).notices[0].Thrown?)
    decreases |pending|
  {
    ChainStep(op, pending, isArray, b, replies, true);
    if replies != [] && Succeeded(replies[0]) && !(!isArray || |pending| < b) {
      CallbackAtMostOnce(op, pending[b..], true, b, replies[1..]);
    }
  }

  // ---------------------------------------------------------------------------
  // `list`

  /** The reply to `list`. A request still carrying the `json` option of an
      earlier `add` or `remove` has its body decoded by the transport already,
      and `JSON.parse` of that object throws. A transport error leaves the
      response undefined, and reading its status throws. */
  function ListOutcome(reply: Reply, staleJson: bool, callback: bool): (r: seq<Notice>)
    ensures |r| == 1
    ensures reply.TransportError? ==> r[0].Thrown?
    ensures Succeeded(reply) && reply.body != "" && !staleJson ==>
              r[0] == (if callback then Callback(None, Some(ParsedBody(reply.body)))
                       else Emit("success", ParsedBody(reply.body)))
    ensures Succeeded(reply) && reply.body != "" && staleJson ==> r[0].Thrown?
    ensures Succeeded(reply) && reply.body == "" ==>
              (if callback then r[0] == Callback(None, Some(NoRules)) else r[0] == Emit("success", NoRules))
    ensures reply.Response? && !Succeeded(reply) ==>
              r[0] == (if callback then Callback(Some(ListError(reply.status)), Some(NoRules))
                       else Emit("error", ListError(reply.status)))
  {
    match reply
    case TransportError(_) => [Thrown("TypeError: Cannot read property 'statusCode' of undefined")]
    case Response(status, body) =>
      if Succeeded(reply) then
        if body == "" then
          [if callback then Callback(None, Some(NoRules)) else Emit("success", NoRules)]
        else if staleJson then
          [Thrown("SyntaxError: Unexpected token o in JSON")]
        else
          [if callback then Callback(None, Some(ParsedBody(body))) else Emit("success", ParsedBody(body))]
      else
        [if callback then Callback(Some(ListError(status)), Some(NoRules)) else Emit("error", ListError(status))]
  }

  function ListError(status: nat): Payload
  {
    Coded(status, "Rules could not be listed. Response Code: " + Decimal(status))
  }

  // ---------------------------------------------------------------------------
  // The manager object.

  /** The requests that carry `batches`, one each, in order. */
  function Requests(verb: HttpMethod, batches: seq<seq<Rule>>): (r: seq<Request>)
    ensures |r| == |batches|
    decreases |batches|
  {
    if batches == [] then [] else [Request(verb, Some(batches[0]))] + Requests(verb, batches[1..])
  }

  lemma RequestsCons(verb: HttpMethod, batch: seq<Rule>, batches: seq<seq<Rule>>)
    ensures Requests(verb, [batch] + batches) == [Request(verb, Some(batch))] + Requests(verb, batches)
  {
    assert ([batch] + batches)[1..] == batches;
  }

  /** Logging one request and then the rest of the chain logs the whole chain,
      and the chain's last batch is the rest's last batch. */
  lemma LogStep(prior: seq<Request>, verb: HttpMethod, batch: seq<Rule>, sent: seq<seq<Rule>>)
    ensures (prior + [Request(verb, Some(batch))]) + Requests(verb, sent) == prior + Requests(verb, [batch] + sent)
    ensures |sent| >= 1 ==> ([batch] + sent)[|[batch] + sent| - 1] == sent[|sent| - 1]
  {
    RequestsCons(verb, batch, sent);
  }

  function MethodOf(op: Op): HttpMethod
  {
    if op == AddOp then Post else Delete
  }

  class RulesManager {
    const options: Options
    /** `options.batch_size`, 0 when unset. */
    const batchOption: nat
    const platform: string
    var requestOptions: RequestOptions
    /** Every request issued, in order. */
    var log: seq<Request>
    /** Every callback invocation, emission and escaped exception, in order. */
    var notices: seq<Notice>

    constructor (options: Options, batchOption: nat)
      ensures this.options == options && this.batchOption == batchOption && platform == Platform(options)
      ensures requestOptions == RequestOptions(None, None) && log == [] && notices == []
    {
      this.options := options;
      this.batchOption := batchOption;
      platform := Platform(options);
      requestOptions := RequestOptions(None, None);
      log, notices := [], [];
    }

    /** `add(new_rules, next)`; `callback` says whether `next` was given. */
    method Add(input: RuleInput, callback: bool, replies: seq<Reply>) returns (thrown: Option<ConfigError>)
      modifies this
      ensures thrown == IdentityCheck(options)
      ensures thrown.Some? ==> log == old(log) && notices == old(notices) && requestOptions == old(requestOptions)
      ensures thrown.None? ==>
                var run := Run(AddOp, input, BatchSize(batchOption), replies, callback);
                log == old(log) + Requests(Post, run.sent) &&
                notices == old(notices) + run.notices &&
                requestOptions == RequestOptions(Some(Post), Some(run.sent[|run.sent| - 1]))
    {
      thrown := IdentityCheck(options);
      if thrown.None? {
        SendChain(AddOp, Flatten(input), input.RuleList?, BatchSize(batchOption), replies, callback);
      }
    }

    /** `remove(rules_to_delete, next)` */
    method Remove(input: RuleInput, callback: bool, replies: seq<Reply>) returns (thrown: Option<ConfigError>)
      modifies this
      ensures thrown == IdentityCheck(options)
      ensures thrown.Some? ==> log == old(log) && notices == old(notices) && requestOptions == old(requestOptions)
      ensures thrown.None? ==>
                var run := Run(RemoveOp, input, BatchSize(batchOption), replies, callback);
                log == old(log) + Requests(Delete, run.sent) &&
                notices == old(notices) + run.notices &&
                requestOptions == RequestOptions(Some(Delete), Some(run.sent[|run.sent| - 1]))
    {
      thrown := IdentityCheck(options);
      if thrown.None? {
        SendChain(RemoveOp, Flatten(input), input.RuleList?, BatchSize(batchOption), replies, callback);
      }
    }

    /** The body shared by `add` and `remove` after the guards: the request
        for the front batch goes out through the shared options, and a success
        on a batch that is not the last calls again on the rest (the wrapping
        callback's `this.add(remaining_rules, old_next)`). */
    method SendChain(op: Op, pending: seq<Rule>, isArray: bool, b: nat, replies: seq<Reply>, callback: bool)
      requires b >= 1
      modifies this
      ensures var run := Chain(op, pending, isArray, b, replies, callback);
              log == old(log) + Requests(MethodOf(op), run.sent) &&
              notices == old(notices) + run.notices &&
              requestOptions == RequestOptions(Some(MethodOf(op)), Some(run.sent[|run.sent| - 1]))
      decreases |pending|
    {
      ghost var run := Chain(op, pending, isArray, b, replies, callback);
      var verb := MethodOf(op);
      var last := !isArray || |pending| < b;
      var batch := if last then pending else pending[..b];
      requestOptions := RequestOptions(Some(verb), Some(batch));
      log := log + [Request(verb, Some(batch))];
      if replies == [] {
        assert run == ChainRun([batch], []);
        LogStep(old(log), verb, batch, []);
      } else if Succeeded(replies[0]) && !last {
        ghost var rest := Chain(op, pending[b..], true, b, replies[1..], callback);
        assert run == ChainRun([batch] + rest.sent, rest.notices);
        LogStep(old(log), verb, batch, rest.sent);
        SendChain(op, pending[b..], true, b, replies[1..], callback);
      } else {
        assert run == ChainRun([batch], Outcome(op, replies[0], last, callback));
        LogStep(old(log), verb, batch, []);
        notices := notices + Outcome(op, replies[0], last, callback);
      }
    }

    /** `list(next)`: a GET through the shared options, which keep the `json`
        body of the last `add` or `remove`. */
    method List(callback: bool, reply: Option<Reply>) returns (thrown: Option<ConfigError>)
      modifies this
      ensures thrown == IdentityCheck(options)
      ensures thrown.Some? ==> log == old(log) && notices == old(notices) && requestOptions == old(requestOptions)
      ensures thrown.None? ==>
                requestOptions == old(requestOptions).(verb := Some(Get)) &&
                log == old(log) + [Request(Get, old(requestOptions).json)] &&
                notices == old(notices) +
                  (if reply.Some? then ListOutcome(reply.value, old(requestOptions).json.Some?, callback) else [])
    {
      thrown := IdentityCheck(options);
      if thrown.None? {
        requestOptions := requestOptions.(verb := Some(Get));
        log := log + [Request(Get, requestOptions.json)];
        if reply.Some? {
          notices := notices + ListOutcome(reply.value, requestOptions.json.Some?, callback);
        }
      }
    }
  }
}
