/**
  JSON documents as the gateway and the controller client inspect them.

  The source reads JSON text with a path-query library; the model keeps only
  what the core uses: lookup of a key in an object (the first member with that
  key wins), lookup along a dotted path, the "array view" of a value and its
  "text view". Turning text into a `Value` is a parameter of the model
  (`Reader`), so every property holds whatever the reader makes of the text.
*/
module Json {
  import opened Wrappers
  import opened Strings

  datatype Value =
    | JNull
    | JBool(b: bool)
    | JNumber(literal: string)
    | JString(text: string)
    | JArray(items: seq<Value>)
    | JObject(members: seq<(string, Value)>)

  /** How a body text is read as a JSON value. */
  type Reader = string -> Value

  /** Position of the first member named `key`, or `|members|` when there is none. */
  function IndexOf(members: seq<(string, Value)>, key: string): (i: nat)
    ensures i <= |members|
    ensures i < |members| ==> members[i].0 == key
    ensures forall j :: 0 <= j < i ==> members[j].0 != key
  {
    if |members| == 0 then 0
    else if members[0].0 == key then 0
    else 1 + IndexOf(members[1..], key)
  }

  /** The value of member `key` of an object; nothing for a non-object or a missing key. */
  function Get(v: Value, key: string): (r: Option<Value>)
    ensures r.Some? <==> v.JObject? && exists j :: 0 <= j < |v.members| && v.members[j].0 == key
    ensures r.Some? ==> r.value == v.members[IndexOf(v.members, key)].1
  {
    match v
    case JObject(members) =>
      var i := IndexOf(members, key);
      if i < |members| then Some(members[i].1) else None
    case _ => None
  }

  /** Lookup along a path of keys, as a dotted query `a.b.c` does. */
  function GetPath(v: Value, path: seq<string>): Option<Value>
    decreases |path|
  {
    if path == [] then Some(v)
    else match Get(v, path[0])
      case None => None
      case Some(child) => GetPath(child, path[1..])
  }

  /** Extending a path by one key looks that key up in what the shorter path found. */
  lemma {:induction false} GetPathSnoc(v: Value, path: seq<string>, key: string)
    ensures GetPath(v, path + [key]) == match GetPath(v, path)
                                        case None => None
                                        case Some(c) => Get(c, key)
    decreases |path|
  {
    if path == [] {
      assert GetPath(v, [key]) == match Get(v, key) case None => None case Some(c) => GetPath(c, []);
    } else {
      assert (path + [key])[0] == path[0];
      assert (path + [key])[1..] == path[1..] + [key];
      match Get(v, path[0])
      case None =>
      case Some(child) => GetPathSnoc(child, path[1..], key);
    }
  }

  /** The elements of a looked-up value seen as an array: nothing for a missing or
      null value, the items of an array, and a one-element list for anything else. */
  function Elements(r: Option<Value>): (items: seq<Value>)
    ensures r.None? ==> items == []
    ensures r == Some(JNull) ==> items == []
    ensures r.Some? && r.value.JArray? ==> items == r.value.items
    ensures r.Some? && !r.value.JArray? && !r.value.JNull? ==> items == [r.value]
  {
    match r
    case None => []
    case Some(JNull) => []
    case Some(JArray(items)) => items
    case Some(v) => [v]
  }

  /** The text view of a looked-up value: empty for a missing or null value, the
      string itself for a string, and the JSON rendering for everything else. */
  function Text(r: Option<Value>): string {
    match r
    case None => ""
    case Some(JNull) => ""
    case Some(JString(s)) => s
    case Some(v) => Render(v)
  }

  /** The text view of a string is the string itself. */
  lemma TextOfString(s: string)
    ensures Text(Some(JString(s))) == s
  {
  }

  /** Compact JSON rendering of a value. */
  function Render(v: Value): string
    decreases v, 1
  {
    match v
    case JNull => "null"
    case JBool(b) => if b then "true" else "false"
    case JNumber(literal) => literal
    case JString(s) => Quote(s)
    case JArray(items) => "[" + RenderItems(items) + "]"
    case JObject(members) => "{" + RenderMembers(members) + "}"
  }

  function RenderItems(items: seq<Value>): string
    decreases items, 0
  {
    if items == [] then ""
    else if |items| == 1 then Render(items[0])
    else Render(items[0]) + "," + RenderItems(items[1..])
  }

  function RenderMembers(members: seq<(string, Value)>): string
    decreases members, 0
  {
    if members == [] then ""
    else
      assert members[0] in members && members[0].1 < members[0];
      var m := Quote(members[0].0) + ":" + Render(members[0].1);
      if |members| == 1 then m else m + "," + RenderMembers(members[1..])
  }

  /** Text found in the rendering of a value is found in the rendering of an
      object holding that value as its only member. */
  lemma InfixInMember(t: string, key: string, v: Value)
    requires IsInfix(t, Render(v))
    ensures IsInfix(t, Render(JObject([(key, v)])))
  {
    assert RenderMembers([(key, v)]) == Quote(key) + ":" + Render(v);
    InfixGrows(t, Render(v), "{" + Quote(key) + ":", "}");
    assert "{" + Quote(key) + ":" + Render(v) + "}" == "{" + RenderMembers([(key, v)]) + "}";
  }

  /** Likewise for an array holding the value as its only item. */
  lemma InfixInItem(t: string, v: Value)
    requires IsInfix(t, Render(v))
    ensures IsInfix(t, Render(JArray([v])))
  {
    assert RenderItems([v]) == Render(v);
    InfixGrows(t, Render(v), "[", "]");
  }

  /** The rendering of a plain string (no quote, no backslash) contains the string. */
  lemma InfixInString(s: string)
    requires forall i :: 0 <= i < |s| ==> s[i] != '"' && s[i] != '\\'
    ensures IsInfix(s, Render(JString(s)))
  {
    EscapePlain(s);
    InfixOfConcat("\"", s, "\"");
  }

  /** A JSON string literal: quotes around the text, with `"` and `\` escaped. */
  function Quote(s: string): string {
    "\"" + Escape(s) + "\""
  }

  function Escape(s: string): string {
    if s == [] then ""
    else (if s[0] == '"' || s[0] == '\\' then ['\\', s[0]] else [s[0]]) + Escape(s[1..])
  }

  /** Text with neither a quote nor a backslash is rendered as it is. */
  lemma {:induction false} EscapePlain(s: string)
    requires forall i :: 0 <= i < |s| ==> s[i] != '"' && s[i] != '\\'
    ensures Escape(s) == s
  {
    if s != [] {
      EscapePlain(s[1..]);
    }
  }
}
