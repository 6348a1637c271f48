/**
 * The parameter binder (`manageParameters`): it walks a request record's fields
 * in declaration order and fills each from the path variables, the query string,
 * the cookies or the headers, according to the field's struct tags.
 */
module Binder {
  import opened Wrappers

  /**
   * One field of the request record, as reflection sees it: its name and the
   * values of its `path`, `query`, `cookie`, `header`, `required` and `json`
   * tags (a tag that is not written reads as "", as `Tag.Get` returns).
   */
  datatype Field = Field(name: string, path: string, query: string, cookie: string,
                         header: string, required: string, json: string)

  /**
   * The parts of an inbound request the binder reads: the parsed query string
   * and headers (each key with its values in order) and the cookies by name.
   */
  datatype Request = Request(query: map<string, seq<string>>,
                             cookies: map<string, string>,
                             header: map<string, seq<string>>)

  /** `url.Values.Get` and `http.Header.Get`: the first value under the key, or "". */
  function FirstValue(m: map<string, seq<string>>, key: string): string {
    if key in m && |m[key]| > 0 then m[key][0] else ""
  }

  /** The `required` tag test: absent (""), or exactly "true". */
  predicate Required(f: Field) {
    f.required == "" || f.required == "true"
  }

  /** Where a field takes its value from, with the tag's name. */
  datatype Source =
    | PathVar(name: string)
    | QueryParam(name: string)
    | CookieName(name: string)
    | HeaderField(name: string)

  /** The first non-empty tag among path, query, cookie and header. */
  function SourceOf(f: Field): Option<Source> {
    if f.path != "" then Some(PathVar(f.path))
    else if f.query != "" then Some(QueryParam(f.query))
    else if f.cookie != "" then Some(CookieName(f.cookie))
    else if f.header != "" then Some(HeaderField(f.header))
    else None
  }

  /**
   * The value a source supplies, or None where that source counts it absent:
   * a path variable is absent only when its key is missing, a query parameter
   * or header when its first value is "", a cookie when no cookie has that name.
   * A present cookie yields the cookie's name, not its value.
   */
  function Lookup(s: Source, req: Request, vars: map<string, string>): Option<string> {
    match s
    case PathVar(n) => if n in vars then Some(vars[n]) else None
    case QueryParam(n) => var v := FirstValue(req.query, n); if v == "" then None else Some(v)
    case CookieName(n) => if n in req.cookies then Some(n) else None
    case HeaderField(n) => var v := FirstValue(req.header, n); if v == "" then None else Some(v)
  }

  /** What binding one field does: leave it alone, write a string, or fail. */
  datatype Step = Skip | Write(value: string) | Missing

  function StepOf(f: Field, req: Request, vars: map<string, string>): Step {
    match SourceOf(f)
    case None => Skip
    case Some(s) =>
      match Lookup(s, req, vars)
      case Some(v) => Write(v)
      case None => if Required(f) then Missing else Write("")
  }

  /** The field's value after a step that did not fail. */
  function Apply(s: Step, current: string): string {
    if s.Write? then s.value else current
  }

  /** The record's field values and whether a required parameter was missing. */
  datatype Bound = Bound(values: seq<string>, missing: bool)

  /**
   * Binding from field `i` on, with `values` the record so far: fields are
   * processed in order and the first missing one stops the walk, keeping what
   * was already written.
   */
  function BindFrom(fields: seq<Field>, req: Request, vars: map<string, string>,
                    values: seq<string>, i: nat): (b: Bound)
    requires |values| == |fields| && i <= |fields|
    ensures |b.values| == |values|
    ensures forall j :: 0 <= j < i ==> b.values[j] == values[j]
    decreases |fields| - i
  {
    if i == |fields| then Bound(values, false)
    else
      match StepOf(fields[i], req, vars)
      case Skip => BindFrom(fields, req, vars, values, i + 1)
      case Write(v) => BindFrom(fields, req, vars, values[i := v], i + 1)
      case Missing => Bound(values, true)
  }

  /** No field from `i` through `j` fails, so the walk reaches past `j`. */
  predicate Reaches(fields: seq<Field>, req: Request, vars: map<string, string>, i: nat, j: nat)
    requires j < |fields|
  {
    forall k :: i <= k <= j ==> !StepOf(fields[k], req, vars).Missing?
  }

  /**
   * The per-tag rules for one field: the source is the first non-empty tag,
   * each source has its own absence test, a field is required exactly when
   * `required` is "" or "true", an optional absent field is set to "", a field
   * with a source tag is never skipped, and a present cookie field is set to
   * the tag itself.
   */
  lemma StepByTag(f: Field, req: Request, vars: map<string, string>)
    ensures f.path == "" && f.query == "" && f.cookie == "" && f.header == ""
            ==> StepOf(f, req, vars) == Skip
    ensures StepOf(f, req, vars).Missing? <==>
            (f.required == "" || f.required == "true") &&
            (if f.path != "" then f.path !in vars
             else if f.query != "" then FirstValue(req.query, f.query) == ""
             else if f.cookie != "" then f.cookie !in req.cookies
             else f.header != "" && FirstValue(req.header, f.header) == "")
    ensures f.path != "" && f.path in vars ==> StepOf(f, req, vars) == Write(vars[f.path])
    ensures f.path == "" && f.query != "" && FirstValue(req.query, f.query) != ""
            ==> StepOf(f, req, vars) == Write(FirstValue(req.query, f.query))
    ensures f.path == "" && f.query == "" && f.cookie != "" && f.cookie in req.cookies
            ==> StepOf(f, req, vars) == Write(f.cookie)
    ensures f.path == "" && f.query == "" && f.cookie == "" && f.header != ""
            && FirstValue(req.header, f.header) != ""
            ==> StepOf(f, req, vars) == Write(FirstValue(req.header, f.header))
    ensures StepOf(f, req, vars).Write? && StepOf(f, req, vars).value == "" && SourceOf(f).Some?
            ==> !Required(f) || SourceOf(f).value.PathVar?
    ensures SourceOf(f).Some? ==> !StepOf(f, req, vars).Skip?
    ensures f.path != "" && f.path !in vars && !Required(f) ==> StepOf(f, req, vars) == Write("")
    ensures f.path == "" && f.query != "" && FirstValue(req.query, f.query) == "" && !Required(f)
            ==> StepOf(f, req, vars) == Write("")
    ensures f.path == "" && f.query == "" && f.cookie != "" && f.cookie !in req.cookies && !Required(f)
            ==> StepOf(f, req, vars) == Write("")
    ensures f.path == "" && f.query == "" && f.cookie == "" && f.header != ""
            && FirstValue(req.header, f.header) == "" && !Required(f)
            ==> StepOf(f, req, vars) == Write("")
  {
  }

  /** Binding fails exactly when some field at or after `i` is required and absent. */
  lemma {:induction false} BindFromMissing(fields: seq<Field>, req: Request, vars: map<string, string>,
                                           values: seq<string>, i: nat)
    requires |values| == |fields| && i <= |fields|
    ensures BindFrom(fields, req, vars, values, i).missing <==>
            exists k :: i <= k < |fields| && StepOf(fields[k], req, vars).Missing?
    decreases |fields| - i
  {
    if i < |fields| {
      match StepOf(fields[i], req, vars)
      case Skip => BindFromMissing(fields, req, vars, values, i + 1);
      case Write(v) => BindFromMissing(fields, req, vars, values[i := v], i + 1);
      case Missing =>
    }
  }

  /**
   * Field `j` ends up written by its own step when the walk reaches it, and
   * keeps its earlier value otherwise: mutation stops at the first missing field.
   */
  lemma {:induction false} BindFromValue(fields: seq<Field>, req: Request, vars: map<string, string>,
                                         values: seq<string>, i: nat, j: nat)
    requires |values| == |fields| && i <= |fields| && j < |fields|
    ensures BindFrom(fields, req, vars, values, i).values[j] ==
            if i <= j && Reaches(fields, req, vars, i, j)
            then Apply(StepOf(fields[j], req, vars), values[j])
            else values[j]
    decreases |fields| - i
  {
    if i < |fields| && i <= j {
      match StepOf(fields[i], req, vars)
      case Skip =>
        BindFromValue(fields, req, vars, values, i + 1, j);
        assert i < j ==> (Reaches(fields, req, vars, i, j) <==> Reaches(fields, req, vars, i + 1, j));
      case Write(v) =>
        BindFromValue(fields, req, vars, values[i := v], i + 1, j);
        assert i < j ==> (Reaches(fields, req, vars, i, j) <==> Reaches(fields, req, vars, i + 1, j));
      case Missing =>
        assert !Reaches(fields, req, vars, i, j);
    }
  }

  /**
   * The whole binder on a record: it fails exactly when a required field is
   * absent; every field before the first such one holds its bound value (or is
   * untouched when it has no source tag), and every field from it on is untouched.
   */
  lemma BindOutcome(fields: seq<Field>, req: Request, vars: map<string, string>, values: seq<string>)
    requires |values| == |fields|
    ensures BindFrom(fields, req, vars, values, 0).missing <==>
            exists k :: 0 <= k < |fields| && StepOf(fields[k], req, vars).Missing?
    ensures forall j :: 0 <= j < |fields| ==>
            BindFrom(fields, req, vars, values, 0).values[j] ==
            if Reaches(fields, req, vars, 0, j) then Apply(StepOf(fields[j], req, vars), values[j])
            else values[j]
  {
    BindFromMissing(fields, req, vars, values, 0);
    forall j | 0 <= j < |fields|
      ensures BindFrom(fields, req, vars, values, 0).values[j] ==
              if Reaches(fields, req, vars, 0, j) then Apply(StepOf(fields[j], req, vars), values[j])
              else values[j]
    {
      BindFromValue(fields, req, vars, values, 0, j);
    }
  }

  /**
   * `manageParameters`: binds `rec` (one slot per field) in place and reports
   * whether a required parameter was missing (`ErrRequiredParameterMissing`).
   */
  method ManageParameters(fields: seq<Field>, req: Request, vars: map<string, string>,
                          rec: array<string>) returns (missing: bool)
    requires rec.Length == |fields|
    modifies rec
    ensures Bound(rec[..], missing) == BindFrom(fields, req, vars, old(rec[..]), 0)
  {
    var i := 0;
    while i < |fields|
      invariant 0 <= i <= |fields|
      invariant BindFrom(fields, req, vars, rec[..], i) == BindFrom(fields, req, vars, old(rec[..]), 0)
    {
      var f := fields[i];
      if f.path != "" {
        var v := "";
        if f.path !in vars {
          if Required(f) {
            return true;
          }
        } else {
          v := vars[f.path];
        }
        rec[i] := v;
      } else if f.query != "" {
        var v := "";
        var value := FirstValue(req.query, f.query);
        if value == "" {
          if Required(f) {
            return true;
          }
        } else {
          v := value;
        }
        rec[i] := v;
      } else if f.cookie != "" {
        var value := "";
        if f.cookie !in req.cookies {
          if Required(f) {
            return true;
          }
        } else {
          value := f.cookie;
        }
        rec[i] := value;
      } else if f.header != "" {
        var v := "";
        var value := FirstValue(req.header, f.header);
        if value == "" {
          if Required(f) {
            return true;
          }
        } else {
          v := value;
        }
        rec[i] := v;
      }
      i := i + 1;
    }
    return false;
  }
}
