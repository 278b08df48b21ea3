/**
 * The `POST /mycopet-customer-update` handler (server.js lines 41-85):
 * validate the body, look the customer up by email, coerce the fields,
 * write them, and answer 200 with a JSON status on every path, a thrown
 * error included.
 */
module Handler {
  import opened Wrappers
  import opened JsValues
  import opened Metafields

  /** The body as the handler destructures it: `{ email, metafields }`. */
  datatype Request = Request(
    email: Option<string>,            // None: absent or null
    metafields: Option<seq<Entry>>)   // None: absent, or not an array

  /** What an awaited upstream call gave: a value, or the `String(e)` of what it threw. */
  datatype Reply<T> = Returned(value: T) | Threw(error: string)

  /**
   * The two GraphQL calls, left abstract. `lookup(q)` answers the customer
   * search with the id found at `data.customers.edges[0].node.id` (None when
   * that path is missing); `metafieldsSet(ownerId, fields)` answers the
   * write with the platform's payload, which the handler passes on as it is.
   */
  datatype Upstream<P> = Upstream(
    lookup: string -> Reply<Option<string>>,
    metafieldsSet: (string, seq<TypedField>) -> Reply<P>)

  /** An upstream call the handler made, with its arguments. */
  datatype Call = LookupCall(query: string) | SetCall(ownerId: string, fields: seq<TypedField>)

  /** The four answers the handler can give. */
  datatype Outcome<P> = SkippedMissing | SkippedNotFound | Updated(result: P) | Failed(error: string)

  /** The HTTP status, the outcome, and the upstream calls made, in order. */
  datatype Response<P> = Response(status: int, outcome: Outcome<P>, calls: seq<Call>)

  /** The JSON body of a response: `ok` and exactly one of `skipped`, `result`, `error`. */
  datatype Body<P> = Body(ok: bool, skipped: Option<string>, result: Option<P>, error: Option<string>)

  const MissingReason: string := "missing email or metafields"
  const NotFoundReason: string := "customer-not-found"

  /** The handler's guard: a truthy email and a non-empty array of metafields. */
  function HasInput(req: Request): (ok: bool)
    ensures ok ==> req.email.Some? && Query(req.email.value) != "email:"
  {
    Truthy(req.email) && req.metafields.Some? && |req.metafields.value| > 0
  }

  /** The search string the lookup is sent: `email:${email}`. */
  function Query(email: string): (q: string)
    ensures |q| == |email| + 6 && q[..6] == "email:" && q[6..] == email
  {
    "email:" + email
  }

  /** The handler, from request and upstream behaviour to response. */
  function Handle<P>(b: Builtins, up: Upstream<P>, req: Request): (resp: Response<P>)
    ensures resp.status == 200
    ensures resp.outcome.SkippedMissing? <==> !HasInput(req)
    ensures resp.calls == [] <==> !HasInput(req)
    ensures HasInput(req) ==> resp.calls[0] == LookupCall(Query(req.email.value))
    ensures |resp.calls| <= 2
    ensures forall i :: 0 <= i < |resp.calls| ==> (resp.calls[i].LookupCall? <==> i == 0)
    ensures |resp.calls| == 2 ==> !resp.outcome.SkippedNotFound?
  {
    if !HasInput(req) then
      Response(200, SkippedMissing, [])
    else
      var find := LookupCall(Query(req.email.value));
      match up.lookup(Query(req.email.value))
      case Threw(e) => Response(200, Failed(e), [find])
      case Returned(id) =>
        if !Truthy(id) then
          Response(200, SkippedNotFound, [find])
        else
          match CoerceAll(b, req.metafields.value)
          case Failure(e) => Response(200, Failed(e), [find])
          case Success(inputs) =>
            var write := SetCall(id.value, inputs);
            match up.metafieldsSet(id.value, inputs)
            case Threw(e) => Response(200, Failed(e), [find, write])
            case Returned(r) => Response(200, Updated(r), [find, write])
  }

  /** The JSON body `res.json(...)` is given for an outcome. */
  function ToBody<P>(o: Outcome<P>): (body: Body<P>)
    ensures body.ok <==> !o.Failed?
    ensures body.skipped.Some? <==> o.SkippedMissing? || o.SkippedNotFound?
    ensures body.result.Some? <==> o.Updated?
    ensures body.error.Some? <==> o.Failed?
    ensures o.SkippedMissing? ==> body.skipped == Some("missing email or metafields")
    ensures o.SkippedNotFound? ==> body.skipped == Some("customer-not-found")
    ensures o.Updated? ==> body.result == Some(o.result)
    ensures o.Failed? ==> body.error == Some(o.error)
  {
    match o
    case SkippedMissing => Body(true, Some(MissingReason), None, None)
    case SkippedNotFound => Body(true, Some(NotFoundReason), None, None)
    case Updated(r) => Body(true, None, Some(r), None)
    case Failed(e) => Body(false, None, None, Some(e))
  }

  /** A request without a truthy email or without a non-empty array is skipped before any call. */
  lemma MissingInputSkips<P>(b: Builtins, up: Upstream<P>, req: Request)
    requires !Truthy(req.email) || req.metafields.None? || req.metafields == Some([])
    ensures Handle(b, up, req) == Response(200, SkippedMissing, [])
    ensures ToBody(Handle(b, up, req).outcome) == Body(true, Some("missing email or metafields"), None, None)
  {
  }

  /** When the lookup finds no truthy id the write is never called. */
  lemma NotFoundSkipsWrite<P>(b: Builtins, up: Upstream<P>, req: Request)
    requires HasInput(req)
    requires up.lookup(Query(req.email.value)) == Returned(None) ||
             up.lookup(Query(req.email.value)) == Returned(Some(""))
    ensures Handle(b, up, req) == Response(200, SkippedNotFound, [LookupCall(Query(req.email.value))])
  {
  }

  /**
   * The write is called exactly when the input is present, the lookup
   * returned a truthy id and every field coerced; it is then called once,
   * with that id and the coerced fields in their input order.
   */
  lemma WriteCalledIff<P>(b: Builtins, up: Upstream<P>, req: Request)
    ensures |Handle(b, up, req).calls| == 2 <==>
      (HasInput(req)
        && up.lookup(Query(req.email.value)).Returned?
        && Truthy(up.lookup(Query(req.email.value)).value)
        && CoerceAll(b, req.metafields.value).Success?)
    ensures |Handle(b, up, req).calls| == 2 ==>
      Handle(b, up, req).calls[1] ==
        SetCall(up.lookup(Query(req.email.value)).value.value, CoerceAll(b, req.metafields.value).value)
  {
  }

  /** An update reports the upstream payload unchanged, after both calls. */
  lemma UpdatedPassesResultThrough<P>(b: Builtins, up: Upstream<P>, req: Request)
    requires Handle(b, up, req).outcome.Updated?
    ensures |Handle(b, up, req).calls| == 2
    ensures var c := Handle(b, up, req).calls[1];
      up.metafieldsSet(c.ownerId, c.fields) == Returned(Handle(b, up, req).outcome.result)
  {
  }

  /**
   * A thrown error, from either call or from the coercion, becomes
   * `{ok:false, error}` with status 200; no other path answers ok:false.
   */
  lemma FailuresAreCaught<P>(b: Builtins, up: Upstream<P>, req: Request)
    ensures !ToBody(Handle(b, up, req).outcome).ok <==>
      HasInput(req) &&
      (up.lookup(Query(req.email.value)).Threw? ||
       (Truthy(up.lookup(Query(req.email.value)).value) &&
        (CoerceAll(b, req.metafields.value).Failure? ||
         up.metafieldsSet(up.lookup(Query(req.email.value)).value.value,
                          CoerceAll(b, req.metafields.value).value).Threw?)))
    ensures Handle(b, up, req).status == 200
    ensures HasInput(req) && up.lookup(Query(req.email.value)).Threw? ==>
      Handle(b, up, req).outcome == Failed(up.lookup(Query(req.email.value)).error)
    ensures (HasInput(req) && up.lookup(Query(req.email.value)).Returned? &&
      Truthy(up.lookup(Query(req.email.value)).value) && CoerceAll(b, req.metafields.value).Failure?) ==>
      Handle(b, up, req).outcome == Failed(CoerceAll(b, req.metafields.value).error)
    ensures (HasInput(req) && up.lookup(Query(req.email.value)).Returned? &&
      Truthy(up.lookup(Query(req.email.value)).value) && CoerceAll(b, req.metafields.value).Success? &&
      up.metafieldsSet(up.lookup(Query(req.email.value)).value.value, CoerceAll(b, req.metafields.value).value).Threw?) ==>
      Handle(b, up, req).outcome ==
        Failed(up.metafieldsSet(up.lookup(Query(req.email.value)).value.value, CoerceAll(b, req.metafields.value).value).error)
    ensures !ToBody(Handle(b, up, req).outcome).ok ==>
      ToBody(Handle(b, up, req).outcome).error == Some(Handle(b, up, req).outcome.error)
  {
  }

  /**
   * An unparseable date fails the whole request once the customer is found,
   * and the write is not called.
   */
  lemma InvalidDateFailsRequest<P>(b: Builtins, up: Upstream<P>, req: Request, i: nat)
    requires HasInput(req)
    requires up.lookup(Query(req.email.value)).Returned? && Truthy(up.lookup(Query(req.email.value)).value)
    requires i < |req.metafields.value|
    requires var e := req.metafields.value[i];
      e.Element? && IsDateKey(e.field.key) && b.dateToIso(ToJsString(e.field.value)).None?
    ensures Handle(b, up, req).outcome.Failed?
    ensures Handle(b, up, req).calls == [LookupCall(Query(req.email.value))]
  {
    InvalidDateFailsAll(b, req.metafields.value, i);
  }
}
