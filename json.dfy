/** The JSON values that `json.loads` yields for the volume templates: strings,
    booleans, arrays and objects. An object is a map from keys to values, as
    the Python dict built by the parser is; none of the templates repeats a
    key, and the key order of a volume descriptor carries no meaning. */
module Json {
  import opened Wrappers

  datatype Json =
    | JString(str: string)
    | JBool(b: bool)
    | JArray(items: seq<Json>)
    | JObject(members: map<string, Json>)

  /** The value reached by following `path` through nested objects, if every
      step names a member of an object. */
  function At(j: Json, path: seq<string>): Option<Json>
    decreases |path|
  {
    if path == [] then Some(j)
    else match j
      case JObject(ms) => if path[0] in ms then At(ms[path[0]], path[1..]) else None
      case _ => None
  }

  /** Following `p + q` is following `p`, then `q` from the value reached. */
  lemma {:induction false} AtConcat(j: Json, p: seq<string>, q: seq<string>)
    ensures At(j, p + q) == (match At(j, p) case Some(v) => At(v, q) case None => None)
    decreases |p|
  {
    if p == [] {
      assert p + q == q;
    } else {
      assert (p + q)[0] == p[0];
      assert (p + q)[1..] == p[1..] + q;
      if j.JObject? && p[0] in j.members {
        AtConcat(j.members[p[0]], p[1..], q);
      }
    }
  }

  /** The set of keys of the object found at `path`. */
  function KeysAt(j: Json, path: seq<string>): Option<set<string>>
  {
    match At(j, path)
    case Some(JObject(ms)) => Some(ms.Keys)
    case _ => None
  }

  /** Characters that may be placed between the quotes of a JSON string
      literal without escaping: no quote, no backslash, no control character. */
  predicate SafeChar(c: char)
  {
    c != '"' && c != '\\' && c >= ' '
  }

  /** A string that, substituted verbatim into a quoted position of a JSON
      template, parses back as exactly itself. */
  predicate SafeString(s: string)
  {
    forall i :: 0 <= i < |s| ==> SafeChar(s[i])
  }

  /** Joining two strings that are safe to substitute gives one too. */
  lemma SafeConcat(s: string, t: string)
    requires SafeString(s) && SafeString(t)
    ensures SafeString(s + t)
  {
  }
}
