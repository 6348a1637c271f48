/**
 * The two example programs of the repository as concrete runs of the model:
 * a GET route whose record binds a path variable, a query parameter, a cookie
 * and a header, and a POST route whose record is decoded from a JSON body.
 */
module Scenarios {
  import opened Wrappers
  import opened Http
  import opened Binder
  import opened Handler
  import opened Routes

  /** The fields of `GetStructTest`: `id` is a required path variable, the rest are optional. */
  function GetStructTest(): seq<Field> {
    [ Field("ID", "id", "", "", "", "", ""),
      Field("Search", "", "search", "", "", "false", ""),
      Field("Who", "", "", "who", "", "false", ""),
      Field("Head", "", "", "", "head", "false", "") ]
  }

  /** The fields of `StructTest`: both carry only a `json` tag. */
  function StructTest(): seq<Field> {
    [ Field("S", "", "", "", "", "", "s"),
      Field("I", "", "", "", "", "", "i") ]
  }

  /**
   * GET /test/12 with a cookie `who=alice` binds ID to "12", Who to the
   * cookie's name "who", and the rest to ""; the nil-returning handler gives
   * 204. Without the `id` variable the request gets 400. `OPTIONS` lists GET
   * and the sentinel's empty method; POST gets 405.
   */
  lemma GetExample(body: Decoding)
    ensures var req := Request(map[], map["who" := "alice"], map[]);
      BindFrom(GetStructTest(), req, map["id" := "12"], Blank(4), 0) == Bound(["12", "", "who", ""], false)
    ensures var req := Request(map[], map["who" := "alice"], map[]);
      Exchange(Struct(GetStructTest()), req, map["id" := "12"], body, NilResponse, true) ==
      Trace(false, true, Reply(StatusNoContent, None, NoBody))
    ensures var req := Request(map["search" := ["x"]], map[], map[]);
      Exchange(Struct(GetStructTest()), req, map[], body, NilResponse, true) ==
      Trace(false, false, Reply(StatusBadRequest, None, PlainText("missing parameter")))
    ensures PathHandler(ChainOf([Registration(MethodGet, 0)]), MethodOptions) ==
            Respond(Reply(StatusNoContent, Some("OPTIONS, GET, "), NoBody))
    ensures PathHandler(ChainOf([Registration(MethodGet, 0)]), MethodPost) == Respond(NotAllowed)
  {
    var req := Request(map[], map["who" := "alice"], map[]);
    var vars := map["id" := "12"];
    var f := GetStructTest();
    assert StepOf(f[0], req, vars) == Write("12");
    assert StepOf(f[1], req, vars) == Write("");
    assert StepOf(f[2], req, vars) == Write("who");
    assert StepOf(f[3], req, vars) == Write("");
    var missingReq := Request(map["search" := ["x"]], map[], map[]);
    assert StepOf(f[0], missingReq, map[]) == Missing;
    var regs := [Registration(MethodGet, 0)];
    assert regs[..0] == [];
    assert ChainOf(regs) == Entry("GET", 0, Sentinel);
    assert Methods(ChainOf(regs)) == ["GET", ""];
    JoinGetAllow();
  }

  /** The Allow headers of the two example chains, joined with ", ". */
  lemma JoinGetAllow()
    ensures Join(["OPTIONS", "GET", ""], ", ") == "OPTIONS, GET, "
    ensures Join(["OPTIONS", "GET", "GET", ""], ", ") == "OPTIONS, GET, GET, "
  {
  }

  /**
   * POST /test: a body that fails to decode gives 400 with the decoder's
   * message and the handler is not called; a decoded body and an encoded
   * result give 200.
   */
  lemma PostExample(req: Request, vars: map<string, string>, message: string)
    ensures Exchange(Struct(StructTest()), req, vars, DecodeFailed(message), Returned, true) ==
            Trace(true, false, Reply(StatusBadRequest, None, PlainText(message)))
    ensures Exchange(Struct(StructTest()), req, vars, Decoded, Returned, true) ==
            Trace(true, true, Reply(StatusOK, None, JsonBody))
  {
    assert StructTest()[0].json != "";
  }

  /**
   * Registering GET twice on one path: the later handler runs, and the Allow
   * header names GET twice.
   */
  lemma DuplicateRegistration()
    ensures var v := ChainOf([Registration(MethodGet, 1), Registration(MethodGet, 2)]);
      PathHandler(v, MethodGet) == Invoke(2) &&
      PathHandler(v, MethodOptions) == Respond(Reply(StatusNoContent, Some("OPTIONS, GET, GET, "), NoBody))
  {
    var regs := [Registration(MethodGet, 1), Registration(MethodGet, 2)];
    assert regs[..1] == [Registration(MethodGet, 1)];
    assert regs[..1][..0] == [];
    assert ChainOf(regs[..1]) == Entry("GET", 1, Sentinel);
    assert ChainOf(regs) == Entry("GET", 2, Entry("GET", 1, Sentinel));
    assert Methods(ChainOf(regs)) == ["GET", "GET", ""];
    JoinGetAllow();
  }
}
