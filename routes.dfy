/**
 * The per-path method chain (`methodFunc`) and the dispatch over it:
 * `checkMethod`, the entry closure built by `AddHanler`, and the path handler
 * that `Serve` installs, including the `OPTIONS` reply and its Allow header.
 */
module Routes {
  import opened Wrappers
  import opened Http

  /** Stands for the application handler an entry wraps (its `runHandler` closure). */
  type HandlerId = nat

  /**
   * A `methodFunc`: `Entry` is a registered (method, handler) whose `next`
   * pointer is never nil; `Sentinel` is the `&methodFunc{}` that ends every
   * chain, with method "", a nil function and a nil `next`.
   */
  datatype Chain = Sentinel | Entry(verb: string, handler: HandlerId, next: Chain)

  /** One call of `AddHanler` on a path, as far as the chain records it. */
  datatype Registration = Registration(verb: string, handler: HandlerId)

  /** What serving a request does: run an application handler, write a reply, or call the sentinel's nil function. */
  datatype Outcome = Invoke(handler: HandlerId) | Respond(reply: Reply) | NilHandlerPanic

  const NotAllowed: Reply := Reply(StatusMethodNotAllowed, None, NoBody)

  function MethodOf(c: Chain): string {
    if c.Entry? then c.verb else ""
  }

  /** The `next` pointer: nil for the sentinel. */
  function NextOf(c: Chain): Option<Chain> {
    if c.Entry? then Some(c.next) else None
  }

  function Length(c: Chain): nat {
    if c.Entry? then 1 + Length(c.next) else 1
  }

  /** The chain after registering `regs` in order on a fresh path: the latest first, the sentinel last. */
  function ChainOf(regs: seq<Registration>): Chain
    decreases |regs|
  {
    if regs == [] then Sentinel
    else
      var last := regs[|regs| - 1];
      Entry(last.verb, last.handler, ChainOf(regs[..|regs| - 1]))
  }

  /** The methods of a chain, head first, ending with the sentinel's "". */
  function Methods(c: Chain): seq<string> {
    if c.Entry? then [c.verb] + Methods(c.next) else [""]
  }

  /** The list joined into the Allow header: `OPTIONS`, then the chain's methods. */
  function AllowList(v: Chain): seq<string> {
    [MethodOptions] + Methods(v)
  }

  /** The registered methods, most recent first, read off the registration log. */
  function VerbsLatestFirst(regs: seq<Registration>): (r: seq<string>)
    ensures |r| == |regs|
  {
    seq(|regs|, i requires 0 <= i < |regs| => regs[|regs| - 1 - i].verb)
  }

  /** The reference for method-keyed dispatch: the most recent registration of `m`. */
  function Latest(regs: seq<Registration>, m: string): Option<HandlerId>
    decreases |regs|
  {
    if regs == [] then None
    else if regs[|regs| - 1].verb == m then Some(regs[|regs| - 1].handler)
    else Latest(regs[..|regs| - 1], m)
  }

  /** The closure `AddHanler` stores in an entry: it re-checks the method, else 405. */
  function EntryFn(c: Chain, m: string): Outcome
    requires c.Entry?
  {
    if c.verb == m then Invoke(c.handler) else Respond(NotAllowed)
  }

  /** `checkMethod`: call the first node whose method equals `m`, else 405 at the nil end. */
  function CheckMethod(c: Chain, m: string): Outcome {
    if MethodOf(c) == m then
      (if c.Entry? then EntryFn(c, m) else NilHandlerPanic)
    else if c.Entry? then CheckMethod(c.next, m)
    else Respond(NotAllowed)
  }

  /** The handler `Serve` installs for a path whose head is `v`. */
  function PathHandler(v: Chain, m: string): Outcome {
    if v.Sentinel? then
      // the branch for `v.next == nil`
      if m == "" then NilHandlerPanic
      else if m == MethodOptions then
        Respond(Reply(StatusNoContent, Some(Join([MethodOptions, ""], ", ")), NoBody))
      else Respond(NotAllowed)
    else if m == v.verb then EntryFn(v, m)
    else if m == MethodOptions then
      Respond(Reply(StatusNoContent, Some(Join(AllowList(v), ", ")), NoBody))
    else CheckMethod(v, m)
  }

  /**
   * The path handler as `Serve` writes it, building the Allow list by walking
   * the `next` pointers until nil.
   */
  method ServeRequest(v: Chain, m: string) returns (o: Outcome)
    ensures o == PathHandler(v, m)
  {
    if v.Sentinel? {
      if m == "" {
        return NilHandlerPanic;
      }
      if m == MethodOptions {
        return Respond(Reply(StatusNoContent, Some(Join([MethodOptions, MethodOf(v)], ", ")), NoBody));
      }
      return Respond(NotAllowed);
    }
    if m == v.verb {
      return EntryFn(v, m);
    }
    if m == MethodOptions {
      var options := [MethodOptions, v.verb];
      var p := NextOf(v);
      while p.Some?
        invariant options + (if p.Some? then Methods(p.value) else []) == AllowList(v)
        decreases if p.Some? then Length(p.value) else 0
      {
        options := options + [MethodOf(p.value)];
        p := NextOf(p.value);
      }
      assert options == AllowList(v);
      return Respond(Reply(StatusNoContent, Some(Join(options, ", ")), NoBody));
    }
    return CheckMethod(v, m);
  }

  /** The chain lists the registered methods, latest first, then the sentinel's "". */
  lemma {:induction false} MethodsOfChain(regs: seq<Registration>)
    ensures Methods(ChainOf(regs)) == VerbsLatestFirst(regs) + [""]
    decreases |regs|
  {
    if regs != [] {
      var n := |regs|;
      var init := regs[..n - 1];
      MethodsOfChain(init);
      assert VerbsLatestFirst(regs) == [regs[n - 1].verb] + VerbsLatestFirst(init) by {
        forall i | 0 <= i < n
          ensures VerbsLatestFirst(regs)[i] == ([regs[n - 1].verb] + VerbsLatestFirst(init))[i]
        {
          if i > 0 {
            assert init[n - 2 - (i - 1)] == regs[n - 1 - i];
          }
        }
      }
    }
  }

  /**
   * `checkMethod` is method-keyed: on the chain of `regs` it runs the most
   * recent registration of `m`; with none it answers 405, unless `m` is "" and
   * the walk calls the sentinel's nil function.
   */
  lemma {:induction false} CheckMethodFindsLatest(regs: seq<Registration>, m: string)
    ensures CheckMethod(ChainOf(regs), m) ==
            match Latest(regs, m)
            case Some(h) => Invoke(h)
            case None => if m == "" then NilHandlerPanic else Respond(NotAllowed)
    decreases |regs|
  {
    if regs != [] {
      CheckMethodFindsLatest(regs[..|regs| - 1], m);
    }
  }

  /**
   * Dispatch on a registered path: the latest registration of a method runs;
   * an unregistered method gets 405; `OPTIONS`, unless it is the latest
   * registration, gets 204 with every registered method in the Allow header,
   * latest first, duplicates kept, and a trailing "" from the sentinel.
   */
  lemma DispatchOnRegistrations(regs: seq<Registration>, m: string)
    requires regs != []
    ensures m != MethodOptions ==>
            PathHandler(ChainOf(regs), m) ==
            match Latest(regs, m)
            case Some(h) => Invoke(h)
            case None => if m == "" then NilHandlerPanic else Respond(NotAllowed)
    ensures m == MethodOptions && regs[|regs| - 1].verb == m ==>
            PathHandler(ChainOf(regs), m) == Invoke(regs[|regs| - 1].handler)
    ensures m == MethodOptions && regs[|regs| - 1].verb != m ==>
            PathHandler(ChainOf(regs), m) ==
            Respond(Reply(StatusNoContent,
                          Some(Join([MethodOptions] + VerbsLatestFirst(regs) + [""], ", ")),
                          NoBody))
  {
    CheckMethodFindsLatest(regs, m);
    MethodsOfChain(regs);
    assert AllowList(ChainOf(regs)) == [MethodOptions] + VerbsLatestFirst(regs) + [""];
  }

  /**
   * Whatever the chain, a 405 from the path handler means no entry has the
   * method, so an entry closure's own 405 branch is never what answers; and an
   * invoked handler belongs to an entry with the request's method.
   */
  lemma {:induction false} NotAllowedOnlyWhenUnregistered(v: Chain, m: string)
    ensures PathHandler(v, m) == Respond(NotAllowed) ==> m !in Methods(v)
    ensures PathHandler(v, m).Invoke? ==> m in Methods(v)
    decreases v
  {
    if v.Entry? && m != v.verb && m != MethodOptions {
      CheckMethodAgrees(v.next, m);
    }
  }

  lemma {:induction false} CheckMethodAgrees(c: Chain, m: string)
    ensures CheckMethod(c, m) == Respond(NotAllowed) ==> m !in Methods(c)
    ensures CheckMethod(c, m).Invoke? ==> m in Methods(c)
    decreases c
  {
    if c.Entry? && c.verb != m {
      CheckMethodAgrees(c.next, m);
    }
  }
}
