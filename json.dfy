/**
 * Decoded JSON values, as Go's encoding/json produces them when it decodes
 * into `interface{}`: objects become `map[string]interface{}`, arrays
 * `[]interface{}`, strings `string`; numbers and booleans are never inspected
 * by the classifier and share one constructor.
 */
module Json {
  import opened Wrappers

  datatype Json =
    | JNull
    | JScalar                        // a number or a boolean
    | JStr(str: string)
    | JArr(items: seq<Json>)
    | JObj(fields: map<string, Json>)

  /** One step of a path: a member of an object or an element of an array. */
  datatype Step = Key(name: string) | Index(pos: nat)

  /**
   * One checked step, as a Go type assertion followed by an index:
   * `v.(map[string]interface{})[k]` or `v.([]interface{})[i]` with a length check.
   * A container of the wrong kind, a missing key or an index out of range gives None.
   */
  function Member(v: Json, s: Step): (r: Option<Json>)
    ensures r.Some? <==> (s.Key? && v.JObj? && s.name in v.fields) || (s.Index? && v.JArr? && s.pos < |v.items|)
    ensures r.Some? ==>
              || (s.Key? && v.JObj? && s.name in v.fields && r.value == v.fields[s.name])
              || (s.Index? && v.JArr? && s.pos < |v.items| && r.value == v.items[s.pos])
  {
    match s
    case Key(k) => if v.JObj? && k in v.fields then Some(v.fields[k]) else None
    case Index(i) => if v.JArr? && i < |v.items| then Some(v.items[i]) else None
  }

  /** Safe nested access: follows `path` from `v`, stopping at the first step that does not apply. */
  function Lookup(v: Json, path: seq<Step>): (r: Option<Json>)
    decreases |path|
  {
    if path == [] then Some(v)
    else match Member(v, path[0])
      case None => None
      case Some(child) => Lookup(child, path[1..])
  }

  /** The string at the end of `path`, if there is one: a lookup followed by `.(string)`. */
  function LookupString(v: Json, path: seq<Step>): (r: Option<string>)
    ensures r.Some? <==> Lookup(v, path).Some? && Lookup(v, path).value.JStr?
    ensures r.Some? ==> Lookup(v, path) == Some(JStr(r.value))
  {
    match Lookup(v, path)
    case Some(JStr(s)) => Some(s)
    case _ => None
  }

  /** A lookup along `p + q` is a lookup along `p` followed by one along `q`. */
  lemma {:induction false} LookupAppend(v: Json, p: seq<Step>, q: seq<Step>)
    ensures Lookup(v, p + q) == match Lookup(v, p)
                                case None => None
                                case Some(w) => Lookup(w, q)
    decreases |p|
  {
    if p == [] {
      assert p + q == q;
    } else {
      assert (p + q)[0] == p[0];
      assert (p + q)[1..] == p[1..] + q;
      match Member(v, p[0])
      case None =>
      case Some(child) => LookupAppend(child, p[1..], q);
    }
  }

  /**
   * Type mismatches short-circuit: once a path reaches a value that is not a
   * container, every longer path gives None rather than an error.
   */
  lemma LookupPastScalar(v: Json, p: seq<Step>, q: seq<Step>)
    requires Lookup(v, p).Some?
    requires !Lookup(v, p).value.JObj? && !Lookup(v, p).value.JArr?
    requires q != []
    ensures Lookup(v, p + q) == None
  {
    LookupAppend(v, p, q);
  }

  /** A one-step lookup is exactly the checked step. */
  lemma LookupOne(v: Json, s: Step)
    ensures Lookup(v, [s]) == Member(v, s)
  {
    assert [s][1..] == [];
  }

  /** A lookup along `[s] + rest` takes the step `s` and continues. */
  lemma LookupCons(v: Json, s: Step, rest: seq<Step>)
    ensures Lookup(v, [s] + rest) == match Member(v, s)
                                     case None => None
                                     case Some(w) => Lookup(w, rest)
  {
    assert ([s] + rest)[0] == s;
    assert ([s] + rest)[1..] == rest;
  }
}
