/**
 * The registration side of the router: the package-level `paths` map from a
 * path pattern to its chain head, `AddHanler` pushing a new head, and `Serve`
 * installing one handler per path and then emptying the map. The OpenAPI
 * reflector is foreign: whether it accepts an operation, and the pattern it
 * normalises the path to, are inputs.
 */
module Server {
  import opened Wrappers
  import opened Routes

  /** The registry after one successful registration: a new head in front of the old one, or of the sentinel. */
  function Push(paths: map<string, Chain>, pattern: string, r: Registration): map<string, Chain> {
    paths[pattern := Entry(r.verb, r.handler, if pattern in paths then paths[pattern] else Sentinel)]
  }

  /** Successful registrations of `regs`, in order, all on one pattern. */
  function RegisterAll(paths: map<string, Chain>, pattern: string, regs: seq<Registration>): map<string, Chain>
    decreases |regs|
  {
    if regs == [] then paths
    else Push(RegisterAll(paths, pattern, regs[..|regs| - 1]), pattern, regs[|regs| - 1])
  }

  /** Every stored head is a real entry, never the sentinel. */
  predicate HeadsAreEntries(paths: map<string, Chain>) {
    forall k :: k in paths ==> paths[k].Entry?
  }

  /**
   * Registering on a pattern the registry does not hold yet gives that
   * pattern the chain of those registrations and leaves every other pattern alone.
   */
  lemma {:induction false} RegisterAllBuildsChain(paths: map<string, Chain>, pattern: string,
                                                  regs: seq<Registration>)
    requires pattern !in paths
    ensures RegisterAll(paths, pattern, regs) ==
            if regs == [] then paths else paths[pattern := ChainOf(regs)]
    decreases |regs|
  {
    if regs != [] {
      RegisterAllBuildsChain(paths, pattern, regs[..|regs| - 1]);
    }
  }

  /** A push keeps the chain of the pattern's earlier registrations behind the new head. */
  lemma PushOntoRegistrations(paths: map<string, Chain>, pattern: string,
                              regs: seq<Registration>, r: Registration)
    requires pattern !in paths
    ensures Push(RegisterAll(paths, pattern, regs), pattern, r) ==
            paths[pattern := ChainOf(regs + [r])]
  {
    RegisterAllBuildsChain(paths, pattern, regs);
    assert (regs + [r])[..|regs + [r]| - 1] == regs;
  }

  /** The package-level `paths` map. */
  class Registry {
    var paths: map<string, Chain>

    predicate Valid()
      reads this
    {
      HeadsAreEntries(paths)
    }

    /** `paths = map[string]methodFunc{}`. */
    constructor ()
      ensures Valid() && paths == map[]
    {
      paths := map[];
    }

    /**
     * `AddHanler`: `newOperation(verb, path)` is the reflector's
     * `NewOperationContext` (None for an error, else the normalised pattern)
     * and `added` whether `AddOperation` succeeded. On either error nothing
     * changes; otherwise the pattern's chain gets a new head.
     */
    method AddHandler(path: string, verb: string, handler: HandlerId,
                      newOperation: (string, string) -> Option<string>, added: bool)
      returns (err: bool)
      requires Valid()
      modifies this
      ensures Valid()
      ensures err <==> newOperation(verb, path).None? || !added
      ensures err ==> paths == old(paths)
      ensures !err ==> paths == Push(old(paths), newOperation(verb, path).value, Registration(verb, handler))
    {
      var np := Entry(verb, handler, Sentinel);
      var op := newOperation(verb, path);
      if op.None? {
        return true;
      }
      var pattern := op.value;
      if !added {
        return true;
      }
      if pattern in paths {
        np := Entry(verb, handler, paths[pattern]);
      }
      paths := paths[pattern := np];
      return false;
    }

    /**
     * `Serve`: installs a handler for every path, each dispatching on that
     * path's chain (`installed`), then deletes every key; `marshalled` is
     * whether the YAML rendering of the document succeeded.
     */
    method Serve(marshalled: bool) returns (installed: map<string, Chain>, err: bool)
      requires Valid()
      modifies this
      ensures Valid() && paths == map[]
      ensures installed == old(paths)
      ensures HeadsAreEntries(installed)
      ensures err <==> !marshalled
    {
      installed := map[];
      var pending := paths.Keys;
      while pending != {}
        invariant pending <= paths.Keys
        invariant installed.Keys == paths.Keys - pending
        invariant forall k :: k in installed ==> installed[k] == paths[k]
        decreases pending
      {
        var k :| k in pending;
        installed := installed[k := paths[k]];
        pending := pending - {k};
      }
      assert installed == paths;
      var keys := paths.Keys;
      while keys != {}
        invariant paths.Keys == keys
        decreases keys
      {
        var k :| k in keys;
        paths := paths - {k};
        keys := keys - {k};
      }
      assert paths == map[];
      err := !marshalled;
    }
  }

  /**
   * The registry is consumed once: after a first `Serve` has installed the
   * registered paths, a second `Serve` installs nothing.
   */
  method ServeTwice(pattern: string, verb: string, handler: HandlerId)
    returns (first: map<string, Chain>, second: map<string, Chain>)
    ensures first == map[pattern := Entry(verb, handler, Sentinel)]
    ensures second == map[]
  {
    var registry := new Registry();
    var err := registry.AddHandler(pattern, verb, handler, (v, p) => Some(p), true);
    first, err := registry.Serve(true);
    second, err := registry.Serve(true);
  }
}
