/**
 * `runHandler`: binds and optionally decodes the request record, calls the
 * application handler and turns its result into a status code. JSON decoding
 * and encoding are foreign; their success or failure is an input.
 */
module Handler {
  import opened Wrappers
  import opened Http
  import opened Binder

  /** The request record type: the empty struct `struct{}`, or a struct with these fields. */
  datatype RequestType = EmptyStruct | Struct(fields: seq<Field>)

  /** What `json.Decoder.Decode` does with the body, if it is called. */
  datatype Decoding = Decoded | DecodeFailed(message: string)

  /** What the application handler returns: an error, a nil response, or a value. */
  datatype HandlerResult = Failed | NilResponse | Returned

  /** One run: whether the body was read, whether the handler was called, and the reply. */
  datatype Trace = Trace(bodyRead: bool, handlerCalled: bool, reply: Reply)

  /** The text of `ErrRequiredParameterMissing`. */
  const MissingParameterMessage: string := "missing parameter"

  /** The zero value of a fresh record: every string field "". */
  function Blank(n: nat): seq<string> {
    seq(n, _ => "")
  }

  /** Some field carries a non-empty `json` tag, so the body is decoded. */
  predicate HasBodyFields(fields: seq<Field>) {
    exists i :: 0 <= i < |fields| && fields[i].json != ""
  }

  /** The reply chosen from the handler's result once the handler has run. */
  function HandlerReply(result: HandlerResult, encodes: bool): Reply {
    match result
    case Failed => Reply(StatusInternalServerError, None, NoBody)
    case NilResponse => Reply(StatusNoContent, None, NoBody)
    case Returned =>
      if encodes then Reply(StatusOK, None, JsonBody)
      else Reply(StatusInternalServerError, None, NoBody)
  }

  /** The decisions `runHandler` takes, as one function of its inputs. */
  function Exchange(rt: RequestType, req: Request, vars: map<string, string>,
                    body: Decoding, result: HandlerResult, encodes: bool): Trace
  {
    if rt.Struct? && BindFrom(rt.fields, req, vars, Blank(|rt.fields|), 0).missing then
      Trace(false, false, Reply(StatusBadRequest, None, PlainText(MissingParameterMessage)))
    else if rt.Struct? && HasBodyFields(rt.fields) && body.DecodeFailed? then
      Trace(true, false, Reply(StatusBadRequest, None, PlainText(body.message)))
    else
      Trace(rt.Struct? && HasBodyFields(rt.fields), true, HandlerReply(result, encodes))
  }

  /**
   * `runHandler`: a fresh record is allocated and bound, the fields are scanned
   * for a `json` tag, and the handler's result is mapped to a status.
   */
  method RunHandler(rt: RequestType, req: Request, vars: map<string, string>,
                    body: Decoding, result: HandlerResult, encodes: bool) returns (trace: Trace)
    ensures trace == Exchange(rt, req, vars, body, result, encodes)
  {
    var bodyRead := false;
    if rt.Struct? {
      var fields := rt.fields;
      var t := new string[|fields|](_ => "");
      assert t[..] == Blank(|fields|);
      var missing := ManageParameters(fields, req, vars, t);
      if missing {
        return Trace(false, false, Reply(StatusBadRequest, None, PlainText(MissingParameterMessage)));
      }
      var found := false;
      var i := 0;
      while i < |fields|
        invariant 0 <= i <= |fields|
        invariant !found
        invariant forall k :: 0 <= k < i ==> fields[k].json == ""
      {
        if fields[i].json != "" {
          found := true;
          break;
        }
        i := i + 1;
      }
      if found {
        bodyRead := true;
        if body.DecodeFailed? {
          return Trace(true, false, Reply(StatusBadRequest, None, PlainText(body.message)));
        }
      }
    }
    match result
    case Failed =>
      trace := Trace(bodyRead, true, Reply(StatusInternalServerError, None, NoBody));
    case Returned =>
      if encodes {
        trace := Trace(bodyRead, true, Reply(StatusOK, None, JsonBody));
      } else {
        trace := Trace(bodyRead, true, Reply(StatusInternalServerError, None, NoBody));
      }
    case NilResponse =>
      trace := Trace(bodyRead, true, Reply(StatusNoContent, None, NoBody));
  }

  /**
   * The status mapping: 400 (handler not called) exactly when binding finds a
   * required parameter missing or a needed body fails to decode; otherwise the
   * handler runs and an error or failed encoding gives 500, a nil response 204,
   * an encoded value 200.
   */
  lemma StatusMapping(rt: RequestType, req: Request, vars: map<string, string>,
                      body: Decoding, result: HandlerResult, encodes: bool)
    ensures var t := Exchange(rt, req, vars, body, result, encodes);
      && t.reply.status in {StatusOK, StatusNoContent, StatusBadRequest, StatusInternalServerError}
      && (t.reply.status == StatusBadRequest <==> !t.handlerCalled)
      && (!t.handlerCalled <==>
            rt.Struct? &&
            ((exists k :: 0 <= k < |rt.fields| && StepOf(rt.fields[k], req, vars).Missing?) ||
             (HasBodyFields(rt.fields) && body.DecodeFailed?)))
      && (t.handlerCalled ==>
            (t.reply.status == StatusInternalServerError <==> result.Failed? || (result.Returned? && !encodes)) &&
            (t.reply.status == StatusNoContent <==> result.NilResponse?) &&
            (t.reply.status == StatusOK <==> result.Returned? && encodes))
  {
    if rt.Struct? {
      BindFromMissing(rt.fields, req, vars, Blank(|rt.fields|), 0);
    }
  }

  /**
   * The body is read only for a struct with a `json`-tagged field whose binding
   * succeeded; a record without such a field gives the same run whatever the body.
   */
  lemma BodyReadOnlyWhenTagged(rt: RequestType, req: Request, vars: map<string, string>,
                               body: Decoding, other: Decoding, result: HandlerResult, encodes: bool)
    ensures Exchange(rt, req, vars, body, result, encodes).bodyRead <==>
            rt.Struct? && HasBodyFields(rt.fields) &&
            !(exists k :: 0 <= k < |rt.fields| && StepOf(rt.fields[k], req, vars).Missing?)
    ensures !(rt.Struct? && HasBodyFields(rt.fields)) ==>
            Exchange(rt, req, vars, body, result, encodes) == Exchange(rt, req, vars, other, result, encodes)
  {
    if rt.Struct? {
      BindFromMissing(rt.fields, req, vars, Blank(|rt.fields|), 0);
    }
  }

  /** With `struct{}` as request type nothing of the request is read: no binding, no body. */
  lemma EmptyStructSkipsBinding(req: Request, vars: map<string, string>, body: Decoding,
                                req': Request, vars': map<string, string>, body': Decoding,
                                result: HandlerResult, encodes: bool)
    ensures Exchange(EmptyStruct, req, vars, body, result, encodes) ==
            Exchange(EmptyStruct, req', vars', body', result, encodes)
    ensures Exchange(EmptyStruct, req, vars, body, result, encodes).handlerCalled
    ensures !Exchange(EmptyStruct, req, vars, body, result, encodes).bodyRead
  {
  }
}
