/** ListenerConfig::from_json: four integer settings read from the "listener"
    object of a JSON document, each falling back to its default on its own. */
module HeadConfig {
  import opened Common
  import opened Json

  datatype ListenerConfig = ListenerConfig(maxConnections: int, udpBufferSize: int, httpPort: int, logLevel: int)

  const DefaultMaxConnections: int := 1000
  const DefaultUdpBufferSize: int := 10 * 1024 * 1024
  const DefaultHttpPort: int := 8080
  const DefaultLogLevel: int := 3

  const DefaultConfig: ListenerConfig :=
    ListenerConfig(DefaultMaxConnections, DefaultUdpBufferSize, DefaultHttpPort, DefaultLogLevel)

  /** The extract_int lambda: the first member called `name`, if it is a number,
      converted as td::to_integer<int> does; the default otherwise. */
  function ExtractInt(obj: seq<(string, Json)>, name: string, defaultValue: int): int
  {
    match Find(obj, name)
    case Some(JNumber(n)) => ToInt32(n)
    case _ => defaultValue
  }

  function FromJson(json: Json): ListenerConfig
  {
    if !json.JObject? then DefaultConfig
    else
      match Find(json.fields, "listener")
      case Some(JObject(obj)) =>
        ListenerConfig(ExtractInt(obj, "max_connections", DefaultMaxConnections),
                       ExtractInt(obj, "udp_buffer_size", DefaultUdpBufferSize),
                       ExtractInt(obj, "http_port", DefaultHttpPort),
                       ExtractInt(obj, "log_level", DefaultLogLevel))
      case _ => DefaultConfig
  }

  /** The value a setting takes, defined by the path that leads to it: a number
      at listener.<name>, or the default. */
  function Setting(json: Json, name: string, defaultValue: int): int
  {
    match FollowPath(json, ["listener", name])
    case Some(JNumber(n)) => ToInt32(n)
    case _ => defaultValue
  }

  /** Each field independently comes from its own path or falls back to its own default. */
  lemma FromJsonReadsEachPath(json: Json)
    ensures FromJson(json).maxConnections == Setting(json, "max_connections", DefaultMaxConnections)
    ensures FromJson(json).udpBufferSize == Setting(json, "udp_buffer_size", DefaultUdpBufferSize)
    ensures FromJson(json).httpPort == Setting(json, "http_port", DefaultHttpPort)
    ensures FromJson(json).logLevel == Setting(json, "log_level", DefaultLogLevel)
  {
    if json.JObject? {
      var names := ["max_connections", "udp_buffer_size", "http_port", "log_level"];
      forall k | 0 <= k < 4
        ensures FollowPath(json, ["listener", names[k]]) ==
                (match Find(json.fields, "listener")
                 case Some(JObject(obj)) => Find(obj, names[k])
                 case _ => None)
      {
        var name := names[k];
        assert ["listener", name][1..] == [name];
        match Find(json.fields, "listener")
        case None =>
        case Some(child) =>
          assert FollowPath(json, ["listener", name]) == FollowPath(child, [name]);
          if child.JObject? {
            assert [name][1..] == [];
            match Find(child.fields, name)
            case None =>
            case Some(v) => assert FollowPath(v, []) == Some(v);
          }
      }
      assert names[0] == "max_connections" && names[1] == "udp_buffer_size";
      assert names[2] == "http_port" && names[3] == "log_level";
    }
  }

  /** A document that is not an object, or has no object under "listener",
      yields every default: 1000, 10485760, 8080 and 3. */
  lemma DefaultsWithoutListenerSection(json: Json)
    requires !json.JObject? || !(exists obj :: Find(json.fields, "listener") == Some(JObject(obj)))
    ensures FromJson(json) == ListenerConfig(1000, 10485760, 8080, 3)
  {
  }

  /** Every setting the result carries fits a C++ int. */
  lemma SettingsFitInt(json: Json)
    ensures var c := FromJson(json);
            -0x8000_0000 <= c.maxConnections < 0x8000_0000 && -0x8000_0000 <= c.udpBufferSize < 0x8000_0000 &&
            -0x8000_0000 <= c.httpPort < 0x8000_0000 && -0x8000_0000 <= c.logLevel < 0x8000_0000
  {
  }

  /** A member that is present but not a number is ignored like a missing one. */
  lemma NonNumberFallsBack(obj: seq<(string, Json)>, name: string, v: Json, rest: seq<(string, Json)>, defaultValue: int)
    requires forall i :: 0 <= i < |obj| ==> obj[i].0 != name
    requires !v.JNumber?
    ensures ExtractInt(obj + [(name, v)] + rest, name, defaultValue) == defaultValue
  {
    FindTakesFirst(obj, name, v, rest);
  }

  /** Of two "listener" sections only the first is read. */
  lemma FirstListenerSectionWins(before: seq<(string, Json)>, obj: seq<(string, Json)>, rest: seq<(string, Json)>)
    requires forall i :: 0 <= i < |before| ==> before[i].0 != "listener"
    ensures FromJson(JObject(before + [("listener", JObject(obj))] + rest)) ==
            FromJson(JObject([("listener", JObject(obj))]))
  {
    FindTakesFirst(before, "listener", JObject(obj), rest);
  }
}
