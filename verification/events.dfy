/** What a stream client publishes: the decoded activity records it reads
    (only the fields the clients look at), and the emissions it makes on its
    event channels. */
module Events {
  import opened Gnip

  datatype Labels = Labels(product: Option<string>, streamType: Option<string>)

  /** An object that carries an `id` (the `gnip.activity` and `gnip.user` objects). */
  datatype IdRef = IdRef(id: Option<string>)

  datatype GnipMeta = GnipMeta(activity: Option<IdRef>, user: Option<IdRef>, labels: Option<Labels>)

  /** One entry of a compliance record's `results`; `originalKeys` lists the keys
      of its `original` object in order (empty when that object is absent). */
  datatype ResultEntry = ResultEntry(gnip: Option<GnipMeta>, originalKeys: seq<string>)

  datatype Summary = Summary(status: Option<string>)

  /** One decoded JSON value of a response body. `results` is empty when absent. */
  datatype Record = Record(
    verb: Option<string>,
    next: Option<string>,
    summary: Option<Summary>,
    results: seq<ResultEntry>)

  /** The first argument of `emit`: a string, or `undefined` (for `emit(data.verb)`
      on a record without a verb). */
  datatype EventName = Named(name: string) | Undefined

  datatype Arg =
    | RecordArg(record: Record)
    | SummaryArg(summary: Option<Summary>)
    | CursorArg(cursor: Option<string>)
    | FlagArg(flag: bool)
    | TextArg(text: string)
    | CodedArg(code: nat, message: string)
    | IdsArg(activityId: Option<string>, userId: Option<string>)
    | EntryArg(entry: ResultEntry)

  /** One `emit(name, args...)`, or an exception that escapes the handler. */
  datatype Emission = Emit(name: EventName, args: seq<Arg>) | Thrown(reason: string)

  /** An exception ends the handler: nothing follows it. */
  predicate ThrowsLast(es: seq<Emission>)
  {
    forall i :: 0 <= i < |es| - 1 ==> !es[i].Thrown?
  }

  predicate Throws(es: seq<Emission>)
  {
    |es| > 0 && es[|es| - 1].Thrown?
  }

  function ErrorEvent(arg: Arg): Emission
  {
    Emit(Named("error"), [arg])
  }

  const EndEvent: Emission := Emit(Named("end"), [])

  /** `'Unsupported response encoding received. [' + encoding + ']'`; an absent
      header concatenates as "undefined". */
  function EncodingError(encoding: Option<string>): Arg
  {
    TextArg("Unsupported response encoding received. [" +
            (if encoding.Some? then encoding.value else "undefined") + "]")
  }

  /** `emit(data.verb, data)` */
  function VerbName(verb: Option<string>): EventName
  {
    if verb.Some? then Named(verb.value) else Undefined
  }

  /** `emit('data', data)` followed by `emit(data.verb, data)`: what the PowerTrack
      stream and replay clients publish for one record. */
  function DataAndVerb(rec: Record): (r: seq<Emission>)
    ensures |r| == 2 && forall i :: 0 <= i < |r| ==> r[i].Emit? && r[i].args == [RecordArg(rec)]
    ensures r[0].name == Named("data") && r[1].name == VerbName(rec.verb)
  {
    [Emit(Named("data"), [RecordArg(rec)]), Emit(VerbName(rec.verb), [RecordArg(rec)])]
  }
}
