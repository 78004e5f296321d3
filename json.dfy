/** The decoded JSON values the configuration readers walk.  Decoding text into
    a value is not part of this model: it is an input (see GlobalConfig.ParserEnv).
    A number is kept as the integer its text denotes. */
module Json {
  import opened Common

  datatype Json =
    | JNull
    | JBool(b: bool)
    | JNumber(n: int)
    | JString(str: string)
    | JArray(items: seq<Json>)
    | JObject(fields: seq<(string, Json)>)

  /** The value of the first member named `key`, as a `find`/`find_if` over the
      members in order gives it. */
  function Find(fields: seq<(string, Json)>, key: string): (r: Option<Json>)
    ensures r.None? <==> forall i :: 0 <= i < |fields| ==> fields[i].0 != key
    ensures r.Some? ==> exists i :: 0 <= i < |fields| && fields[i] == (key, r.value) &&
                                   forall j :: 0 <= j < i ==> fields[j].0 != key
    decreases |fields|
  {
    if fields == [] then None
    else if fields[0].0 == key then Some(fields[0].1)
    else
      var r := Find(fields[1..], key);
      assert forall j :: 1 <= j < |fields| ==> fields[j] == fields[1..][j - 1];
      r
  }

  /** The member `key` of an object value, when it is itself an object. */
  function ObjectField(fields: seq<(string, Json)>, key: string): Option<seq<(string, Json)>>
  {
    match Find(fields, key)
    case Some(JObject(f)) => Some(f)
    case _ => None
  }

  function ArrayField(fields: seq<(string, Json)>, key: string): Option<seq<Json>>
  {
    match Find(fields, key)
    case Some(JArray(a)) => Some(a)
    case _ => None
  }

  function StringField(fields: seq<(string, Json)>, key: string): Option<string>
  {
    match Find(fields, key)
    case Some(JString(s)) => Some(s)
    case _ => None
  }

  function NumberField(fields: seq<(string, Json)>, key: string): Option<int>
  {
    match Find(fields, key)
    case Some(JNumber(n)) => Some(n)
    case _ => None
  }

  /** Walks a value through nested objects along `path`. */
  function FollowPath(v: Json, path: seq<string>): Option<Json>
    decreases |path|
  {
    if path == [] then Some(v)
    else if !v.JObject? then None
    else
      match Find(v.fields, path[0])
      case None => None
      case Some(child) => FollowPath(child, path[1..])
  }

  /** One of several members with the same name is never seen past the first. */
  lemma {:induction false} FindTakesFirst(a: seq<(string, Json)>, key: string, v: Json, b: seq<(string, Json)>)
    requires forall i :: 0 <= i < |a| ==> a[i].0 != key
    ensures Find(a + [(key, v)] + b, key) == Some(v)
    decreases |a|
  {
    if a != [] {
      assert (a + [(key, v)] + b)[1..] == a[1..] + [(key, v)] + b;
      FindTakesFirst(a[1..], key, v, b);
    }
  }

  /** td::to_integer<td::int32>: the value wrapped into the signed 32-bit range. */
  function ToInt32(n: int): (r: int)
    ensures -0x8000_0000 <= r < 0x8000_0000
    ensures (r - n) % TwoTo32 == 0
    ensures -0x8000_0000 <= n < 0x8000_0000 ==> r == n
  {
    var m := n % TwoTo32;
    if m < 0x8000_0000 then m else m - TwoTo32
  }

  /** static_cast<td::uint16> of a 32-bit integer. */
  function ToUint16(n: int): (r: nat)
    ensures r < 65536
    ensures (r - n) % 65536 == 0
    ensures 0 <= n < 65536 ==> r == n
  {
    n % 65536
  }
}
