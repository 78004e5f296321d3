/** GlobalConfigParser: reads static DHT nodes and liteservers from the global
    configuration, and builds the two default overlay ids.

    JSON decoding, base64 decoding, the ADNL short id of a key and the
    initialisation of an IPv4 address are foreign; they are the fields of
    ParserEnv.  Warnings written for skipped entries are not modelled. */
module GlobalConfig {
  import opened Common
  import opened Json

  datatype ParserEnv = ParserEnv(
    jsonDecode: string -> Result<Json>,
    base64Decode: string -> Option<seq<byte>>,
    /** AdnlNodeIdFull{pubkeys::Ed25519{key}}.compute_short_id() */
    shortIdOf: seq<byte> -> NodeId,
    /** IPAddress::init_ipv4_port(ipv4_to_str(ip), port); None when it fails. */
    initIpv4Port: (int, nat) -> Option<IpAddress>)

  /** StaticNodeInfo: the Ed25519 key of the full id, its short id and the address. */
  datatype StaticNodeInfo = StaticNodeInfo(idKey: seq<byte>, idShort: NodeId, addr: IpAddress)

  const ErrNotObject: string := "Expected JSON object in global config"
  const ErrNoDht: string := "No valid 'dht' section in global config"
  const ErrNoStaticNodes: string := "No valid 'static_nodes' section in DHT config"
  const ErrNoNodes: string := "No valid 'nodes' array in static_nodes"
  const ErrNoLiteservers: string := "No valid 'liteservers' section in global config"

  const KeyTypeEd25519: string := "pub.ed25519"
  const AddressTypeUdp: string := "adnl.address.udp"

  // ----- one entry

  /** The Ed25519 key of an `id` object: its "@type" must be "pub.ed25519" and
      its "key" a base64 string of exactly 32 bytes. */
  function IdKey(env: ParserEnv, idObj: seq<(string, Json)>): Option<seq<byte>>
  {
    if StringField(idObj, "@type") != Some(KeyTypeEd25519) then None
    else
      match StringField(idObj, "key")
      case None => None
      case Some(text) =>
        match env.base64Decode(text)
        case None => None
        case Some(bytes) => if |bytes| != 32 then None else Some(bytes)
  }

  /** The address of an object carrying numeric "ip" and "port", converted as
      the source converts them (int32, then uint16 for the port). */
  function IpPort(env: ParserEnv, obj: seq<(string, Json)>): Option<IpAddress>
  {
    match NumberField(obj, "ip")
    case None => None
    case Some(ip) =>
      match NumberField(obj, "port")
      case None => None
      case Some(port) => env.initIpv4Port(ToInt32(ip), ToUint16(ToInt32(port)))
  }

  /** One element of `nodes`, or None when the loop skips it with `continue`.
      Only the first element of `addrs` is looked at. */
  function StaticNodeOf(env: ParserEnv, node: Json): Option<StaticNodeInfo>
  {
    if !node.JObject? then None
    else
      match ObjectField(node.fields, "id")
      case None => None
      case Some(idObj) =>
        match IdKey(env, idObj)
        case None => None
        case Some(key) =>
          match ObjectField(node.fields, "addr_list")
          case None => None
          case Some(addrList) =>
            match ArrayField(addrList, "addrs")
            case None => None
            case Some(addrs) =>
              if addrs == [] || !addrs[0].JObject? then None
              else if StringField(addrs[0].fields, "@type") != Some(AddressTypeUdp) then None
              else
                match IpPort(env, addrs[0].fields)
                case None => None
                case Some(addr) => Some(StaticNodeInfo(key, env.shortIdOf(key), addr))
  }

  /** One element of `liteservers`: ip and port are read before the id. */
  function LiteserverOf(env: ParserEnv, server: Json): Option<StaticNodeInfo>
  {
    if !server.JObject? then None
    else if NumberField(server.fields, "ip").None? || NumberField(server.fields, "port").None? then None
    else
      var ip := ToInt32(NumberField(server.fields, "ip").value);
      var port := ToUint16(ToInt32(NumberField(server.fields, "port").value));
      match ObjectField(server.fields, "id")
      case None => None
      case Some(idObj) =>
        match IdKey(env, idObj)
        case None => None
        case Some(key) =>
          match env.initIpv4Port(ip, port)
          case None => None
          case Some(addr) => Some(StaticNodeInfo(key, env.shortIdOf(key), addr))
  }

  // ----- the filters the loops compute

  function FilterStaticNodes(env: ParserEnv, nodes: seq<Json>): seq<StaticNodeInfo>
    decreases |nodes|
  {
    if nodes == [] then []
    else
      var init := FilterStaticNodes(env, nodes[..|nodes| - 1]);
      match StaticNodeOf(env, nodes[|nodes| - 1])
      case None => init
      case Some(n) => init + [n]
  }

  function FilterLiteservers(env: ParserEnv, servers: seq<Json>): seq<StaticNodeInfo>
    decreases |servers|
  {
    if servers == [] then []
    else
      var init := FilterLiteservers(env, servers[..|servers| - 1]);
      match LiteserverOf(env, servers[|servers| - 1])
      case None => init
      case Some(n) => init + [n]
  }

  /** The `nodes` array of a decoded global config, or the first section check that fails. */
  function NodesArray(v: Json): Result<seq<Json>>
  {
    if !v.JObject? then Failure(ErrNotObject)
    else
      match ObjectField(v.fields, "dht")
      case None => Failure(ErrNoDht)
      case Some(dht) =>
        match ObjectField(dht, "static_nodes")
        case None => Failure(ErrNoStaticNodes)
        case Some(staticNodes) =>
          match ArrayField(staticNodes, "nodes")
          case None => Failure(ErrNoNodes)
          case Some(nodes) => Success(nodes)
  }

  function LiteserversArray(v: Json): Result<seq<Json>>
  {
    if !v.JObject? then Failure(ErrNotObject)
    else
      match ArrayField(v.fields, "liteservers")
      case None => Failure(ErrNoLiteservers)
      case Some(servers) => Success(servers)
  }

  /** What parse_static_nodes returns. */
  function StaticNodes(env: ParserEnv, jsonData: string): Result<seq<StaticNodeInfo>>
  {
    match env.jsonDecode(jsonData)
    case Failure(e) => Failure(e)
    case Success(v) =>
      match NodesArray(v)
      case Failure(e) => Failure(e)
      case Success(nodes) => Success(FilterStaticNodes(env, nodes))
  }

  /** What parse_liteservers returns. */
  function Liteservers(env: ParserEnv, jsonData: string): Result<seq<StaticNodeInfo>>
  {
    match env.jsonDecode(jsonData)
    case Failure(e) => Failure(e)
    case Success(v) =>
      match LiteserversArray(v)
      case Failure(e) => Failure(e)
      case Success(servers) => Success(FilterLiteservers(env, servers))
  }

  // ----- the parsing loops

  method ParseStaticNodes(env: ParserEnv, jsonData: string) returns (r: Result<seq<StaticNodeInfo>>)
    ensures r == StaticNodes(env, jsonData)
  {
    var decoded := env.jsonDecode(jsonData);
    if decoded.Failure? {
      return Failure(decoded.error);
    }
    var section := NodesArray(decoded.value);
    if section.Failure? {
      return Failure(section.error);
    }
    var result := CollectStaticNodes(env, section.value);
    return Success(result);
  }

  /** The loop of parse_static_nodes over `nodes`, skipping malformed entries. */
  method CollectStaticNodes(env: ParserEnv, nodes: seq<Json>) returns (result: seq<StaticNodeInfo>)
    ensures result == FilterStaticNodes(env, nodes)
  {
    result := [];
    var i := 0;
    while i < |nodes|
      invariant 0 <= i <= |nodes|
      invariant result == FilterStaticNodes(env, nodes[..i])
    {
      FilterStaticNodesSnoc(env, nodes, i);
      var entry := StaticNodeOf(env, nodes[i]);
      if entry.Some? {
        result := result + [entry.value];
      }
      i := i + 1;
    }
    assert nodes[..i] == nodes;
  }

  lemma FilterStaticNodesSnoc(env: ParserEnv, nodes: seq<Json>, i: nat)
    requires i < |nodes|
    ensures FilterStaticNodes(env, nodes[..i + 1]) ==
            if StaticNodeOf(env, nodes[i]).Some? then FilterStaticNodes(env, nodes[..i]) + [StaticNodeOf(env, nodes[i]).value]
            else FilterStaticNodes(env, nodes[..i])
  {
    assert nodes[..i + 1][..i] == nodes[..i];
  }

  method ParseLiteservers(env: ParserEnv, jsonData: string) returns (r: Result<seq<StaticNodeInfo>>)
    ensures r == Liteservers(env, jsonData)
  {
    var decoded := env.jsonDecode(jsonData);
    if decoded.Failure? {
      return Failure(decoded.error);
    }
    var section := LiteserversArray(decoded.value);
    if section.Failure? {
      return Failure(section.error);
    }
    var result := CollectLiteservers(env, section.value);
    return Success(result);
  }

  /** The loop of parse_liteservers over `liteservers`, skipping malformed entries. */
  method CollectLiteservers(env: ParserEnv, servers: seq<Json>) returns (result: seq<StaticNodeInfo>)
    ensures result == FilterLiteservers(env, servers)
  {
    result := [];
    var i := 0;
    while i < |servers|
      invariant 0 <= i <= |servers|
      invariant result == FilterLiteservers(env, servers[..i])
    {
      FilterLiteserversSnoc(env, servers, i);
      var entry := LiteserverOf(env, servers[i]);
      if entry.Some? {
        result := result + [entry.value];
      }
      i := i + 1;
    }
    assert servers[..i] == servers;
  }

  lemma FilterLiteserversSnoc(env: ParserEnv, servers: seq<Json>, i: nat)
    requires i < |servers|
    ensures FilterLiteservers(env, servers[..i + 1]) ==
            if LiteserverOf(env, servers[i]).Some? then FilterLiteservers(env, servers[..i]) + [LiteserverOf(env, servers[i]).value]
            else FilterLiteservers(env, servers[..i])
  {
    assert servers[..i + 1][..i] == servers[..i];
  }

  // ----- properties

  predicate IsObjectAt(v: Json, path: seq<string>)
  {
    FollowPath(v, path).Some? && FollowPath(v, path).value.JObject?
  }

  predicate IsArrayAt(v: Json, path: seq<string>)
  {
    FollowPath(v, path).Some? && FollowPath(v, path).value.JArray?
  }

  lemma FollowOne(v: Json, key: string)
    requires v.JObject?
    ensures FollowPath(v, [key]) == Find(v.fields, key)
  {
    assert [key][1..] == [];
    match Find(v.fields, key)
    case None =>
    case Some(c) => assert FollowPath(c, []) == Some(c);
  }

  lemma FollowAppend(v: Json, path: seq<string>, key: string)
    requires IsObjectAt(v, path)
    ensures FollowPath(v, path + [key]) == Find(FollowPath(v, path).value.fields, key)
    decreases |path|
  {
    if path == [] {
      assert path + [key] == [key];
      FollowOne(v, key);
    } else {
      assert (path + [key])[1..] == path[1..] + [key];
      assert (path + [key])[0] == path[0];
      FollowAppend(Find(v.fields, path[0]).value, path[1..], key);
    }
  }

  /** The sections are checked in order, each error naming the first that is
      missing or of the wrong type; past them parsing always succeeds. */
  lemma StaticNodesSectionErrors(v: Json)
    ensures !v.JObject? ==> NodesArray(v) == Failure(ErrNotObject)
    ensures v.JObject? && !IsObjectAt(v, ["dht"]) ==> NodesArray(v) == Failure(ErrNoDht)
    ensures v.JObject? && IsObjectAt(v, ["dht"]) && !IsObjectAt(v, ["dht", "static_nodes"]) ==>
              NodesArray(v) == Failure(ErrNoStaticNodes)
    ensures IsObjectAt(v, ["dht", "static_nodes"]) && !IsArrayAt(v, ["dht", "static_nodes", "nodes"]) ==>
              NodesArray(v) == Failure(ErrNoNodes)
    ensures IsArrayAt(v, ["dht", "static_nodes", "nodes"]) ==>
              NodesArray(v) == Success(FollowPath(v, ["dht", "static_nodes", "nodes"]).value.items)
  {
    if v.JObject? {
      FollowOne(v, "dht");
      if IsObjectAt(v, ["dht"]) {
        assert ["dht"] + ["static_nodes"] == ["dht", "static_nodes"];
        FollowAppend(v, ["dht"], "static_nodes");
        if IsObjectAt(v, ["dht", "static_nodes"]) {
          assert ["dht", "static_nodes"] + ["nodes"] == ["dht", "static_nodes", "nodes"];
          FollowAppend(v, ["dht", "static_nodes"], "nodes");
        }
      }
    }
    if IsObjectAt(v, ["dht", "static_nodes"]) || IsArrayAt(v, ["dht", "static_nodes", "nodes"]) {
      assert v.JObject?;
    }
  }

  /** parse_static_nodes succeeds exactly when the text decodes to a config with
      a dht.static_nodes.nodes array, and then returns the filter of that array. */
  lemma StaticNodesSucceedsExactly(env: ParserEnv, jsonData: string)
    ensures StaticNodes(env, jsonData).Success? <==>
            env.jsonDecode(jsonData).Success? && IsArrayAt(env.jsonDecode(jsonData).value, ["dht", "static_nodes", "nodes"])
    ensures env.jsonDecode(jsonData).Failure? ==> StaticNodes(env, jsonData) == Failure(env.jsonDecode(jsonData).error)
    ensures StaticNodes(env, jsonData).Success? ==>
            StaticNodes(env, jsonData).value ==
              FilterStaticNodes(env, FollowPath(env.jsonDecode(jsonData).value, ["dht", "static_nodes", "nodes"]).value.items)
  {
    if env.jsonDecode(jsonData).Success? {
      var v := env.jsonDecode(jsonData).value;
      StaticNodesSectionErrors(v);
      if v.JObject? && IsObjectAt(v, ["dht"]) && !IsObjectAt(v, ["dht", "static_nodes"]) {
        assert !IsArrayAt(v, ["dht", "static_nodes", "nodes"]) by {
          assert ["dht", "static_nodes"] + ["nodes"] == ["dht", "static_nodes", "nodes"];
          NotObjectStopsPath(v, ["dht", "static_nodes"], "nodes");
        }
      }
      if v.JObject? && !IsObjectAt(v, ["dht"]) {
        assert !IsArrayAt(v, ["dht", "static_nodes", "nodes"]) by {
          assert ["dht"] + ["static_nodes", "nodes"] == ["dht", "static_nodes", "nodes"];
          NotObjectStopsPath2(v, ["dht"], "static_nodes", "nodes");
        }
      }
    }
  }

  lemma NotObjectStopsPath(v: Json, path: seq<string>, key: string)
    requires !IsObjectAt(v, path)
    ensures FollowPath(v, path + [key]).None?
    decreases |path|
  {
    if path == [] {
      assert path + [key] == [key];
    } else if v.JObject? && Find(v.fields, path[0]).Some? {
      assert (path + [key])[1..] == path[1..] + [key];
      NotObjectStopsPath(Find(v.fields, path[0]).value, path[1..], key);
    }
  }

  lemma NotObjectStopsPath2(v: Json, path: seq<string>, k1: string, k2: string)
    requires !IsObjectAt(v, path)
    ensures FollowPath(v, path + [k1, k2]).None?
    decreases |path|
  {
    if path == [] {
      assert path + [k1, k2] == [k1, k2];
    } else if v.JObject? && Find(v.fields, path[0]).Some? {
      assert (path + [k1, k2])[1..] == path[1..] + [k1, k2];
      NotObjectStopsPath2(Find(v.fields, path[0]).value, path[1..], k1, k2);
    }
  }

  /** The filter keeps the accepted entries in their order: filtering a
      concatenation is the concatenation of the filters. */
  lemma {:induction false} StaticNodesConcat(env: ParserEnv, a: seq<Json>, b: seq<Json>)
    ensures FilterStaticNodes(env, a + b) == FilterStaticNodes(env, a) + FilterStaticNodes(env, b)
    decreases |b|
  {
    if b == [] {
      assert a + b == a;
    } else {
      assert (a + b)[..|a + b| - 1] == a + b[..|b| - 1];
      StaticNodesConcat(env, a, b[..|b| - 1]);
    }
  }

  /** The filter of one entry is that entry's verdict; malformed entries are skipped. */
  lemma StaticNodesSingle(env: ParserEnv, node: Json)
    ensures FilterStaticNodes(env, [node]) ==
            if StaticNodeOf(env, node).Some? then [StaticNodeOf(env, node).value] else []
  {
    assert [node][..0] == [];
  }

  /** The result is no longer than `nodes`, and each accepted node is the verdict on some entry. */
  lemma {:induction false} StaticNodesBounded(env: ParserEnv, nodes: seq<Json>)
    ensures |FilterStaticNodes(env, nodes)| <= |nodes|
    ensures forall k :: 0 <= k < |FilterStaticNodes(env, nodes)| ==>
              exists i :: 0 <= i < |nodes| && StaticNodeOf(env, nodes[i]) == Some(FilterStaticNodes(env, nodes)[k])
    decreases |nodes|
  {
    if nodes != [] {
      var init := nodes[..|nodes| - 1];
      StaticNodesBounded(env, init);
      var f := FilterStaticNodes(env, nodes);
      forall k | 0 <= k < |f|
        ensures exists i :: 0 <= i < |nodes| && StaticNodeOf(env, nodes[i]) == Some(f[k])
      {
        if k < |FilterStaticNodes(env, init)| {
          var i :| 0 <= i < |init| && StaticNodeOf(env, init[i]) == Some(FilterStaticNodes(env, init)[k]);
          assert nodes[i] == init[i];
        } else {
          assert StaticNodeOf(env, nodes[|nodes| - 1]) == Some(f[k]);
        }
      }
    }
  }

  function StringAt(v: Json, path: seq<string>): Option<string>
  {
    match FollowPath(v, path)
    case Some(JString(s)) => Some(s)
    case _ => None
  }

  function NumberAt(v: Json, path: seq<string>): Option<int>
  {
    match FollowPath(v, path)
    case Some(JNumber(n)) => Some(n)
    case _ => None
  }

  /** The id conditions, read along paths: id.@type is "pub.ed25519" and id.key
      is base64 text of exactly the 32 bytes `key`. */
  predicate KeyAccepted(env: ParserEnv, entry: Json, key: seq<byte>)
  {
    StringAt(entry, ["id", "@type"]) == Some(KeyTypeEd25519) &&
    StringAt(entry, ["id", "key"]).Some? &&
    env.base64Decode(StringAt(entry, ["id", "key"]).value) == Some(key) &&
    |key| == 32
  }

  /** The address conditions on a UDP address object: numeric ip and port that
      initialise to `addr`. */
  predicate IpPortAccepted(env: ParserEnv, a: Json, addr: IpAddress)
  {
    NumberAt(a, ["ip"]).Some? && NumberAt(a, ["port"]).Some? &&
    env.initIpv4Port(ToInt32(NumberAt(a, ["ip"]).value), ToUint16(ToInt32(NumberAt(a, ["port"]).value))) == Some(addr)
  }

  /** What an accepted static node has: an Ed25519 id whose key decodes to 32
      bytes, a non-empty addrs whose first element is a UDP address with numeric
      ip and port; and from these the node's short id and address. */
  predicate AcceptedStaticNode(env: ParserEnv, node: Json, info: StaticNodeInfo)
  {
    KeyAccepted(env, node, info.idKey) &&
    info.idShort == env.shortIdOf(info.idKey) &&
    IsArrayAt(node, ["addr_list", "addrs"]) &&
    (var addrs := FollowPath(node, ["addr_list", "addrs"]).value.items;
     addrs != [] &&
     StringAt(addrs[0], ["@type"]) == Some(AddressTypeUdp) &&
     IpPortAccepted(env, addrs[0], info.addr))
  }

  lemma FollowTwo(v: Json, k1: string, k2: string)
    requires v.JObject?
    ensures var c := Find(v.fields, k1);
            FollowPath(v, [k1, k2]) == if c.Some? && c.value.JObject? then Find(c.value.fields, k2) else None
  {
    assert [k1, k2][1..] == [k2];
    match Find(v.fields, k1)
    case None =>
    case Some(c) =>
      if c.JObject? { FollowOne(c, k2); }
  }

  lemma IdKeyByPath(env: ParserEnv, entry: Json, key: seq<byte>)
    requires entry.JObject?
    ensures (ObjectField(entry.fields, "id").Some? && IdKey(env, ObjectField(entry.fields, "id").value) == Some(key))
            <==> KeyAccepted(env, entry, key)
  {
    FollowTwo(entry, "id", "@type");
    FollowTwo(entry, "id", "key");
  }

  lemma IpPortByPath(env: ParserEnv, a: Json, addr: IpAddress)
    requires a.JObject?
    ensures IpPort(env, a.fields) == Some(addr) <==> IpPortAccepted(env, a, addr)
  {
    FollowOne(a, "ip");
    FollowOne(a, "port");
  }

  lemma {:induction false} StaticNodeAcceptedExactly(env: ParserEnv, node: Json, info: StaticNodeInfo)
    ensures StaticNodeOf(env, node) == Some(info) <==> AcceptedStaticNode(env, node, info)
  {
    if node.JObject? {
      IdKeyByPath(env, node, info.idKey);
      FollowTwo(node, "addr_list", "addrs");
      var al := ObjectField(node.fields, "addr_list");
      if al.Some? && ArrayField(al.value, "addrs").Some? {
        var addrs := ArrayField(al.value, "addrs").value;
        assert FollowPath(node, ["addr_list", "addrs"]) == Some(JArray(addrs));
        if addrs != [] && addrs[0].JObject? {
          FollowOne(addrs[0], "@type");
          IpPortByPath(env, addrs[0], info.addr);
        }
      }
    } else {
      assert FollowPath(node, ["id", "@type"]) == None;
    }
  }

  /** Only addrs[0] is consulted: a node whose first address is not a UDP
      address is dropped whatever addresses follow it. */
  lemma OnlyFirstAddressCounts(env: ParserEnv, node: Json)
    requires node.JObject?
    requires ObjectField(node.fields, "addr_list").Some?
    requires ArrayField(ObjectField(node.fields, "addr_list").value, "addrs").Some?
    requires var addrs := ArrayField(ObjectField(node.fields, "addr_list").value, "addrs").value;
             addrs != [] && (!addrs[0].JObject? || StringField(addrs[0].fields, "@type") != Some(AddressTypeUdp))
    ensures StaticNodeOf(env, node) == None
  {
  }

  /** A liteserver is accepted on the same key and address conditions, read
      from the server object itself; the order of the checks changes only which
      warning is logged. */
  predicate AcceptedLiteserver(env: ParserEnv, server: Json, info: StaticNodeInfo)
  {
    IpPortAccepted(env, server, info.addr) &&
    KeyAccepted(env, server, info.idKey) &&
    info.idShort == env.shortIdOf(info.idKey)
  }

  lemma {:induction false} LiteserverAcceptedExactly(env: ParserEnv, server: Json, info: StaticNodeInfo)
    ensures LiteserverOf(env, server) == Some(info) <==> AcceptedLiteserver(env, server, info)
  {
    if server.JObject? {
      FollowOne(server, "ip");
      FollowOne(server, "port");
      IdKeyByPath(env, server, info.idKey);
    } else {
      assert FollowPath(server, ["ip"]) == None;
    }
  }

  /** parse_liteservers errors exactly when the text does not decode to an
      object with a "liteservers" array, and otherwise filters that array. */
  lemma LiteserversSucceedsExactly(env: ParserEnv, jsonData: string)
    ensures var d := env.jsonDecode(jsonData);
            d.Success? && !d.value.JObject? ==> Liteservers(env, jsonData) == Failure(ErrNotObject)
    ensures var d := env.jsonDecode(jsonData);
            d.Success? && d.value.JObject? && !IsArrayAt(d.value, ["liteservers"]) ==>
              Liteservers(env, jsonData) == Failure(ErrNoLiteservers)
    ensures var d := env.jsonDecode(jsonData);
            d.Success? && IsArrayAt(d.value, ["liteservers"]) ==>
              Liteservers(env, jsonData) == Success(FilterLiteservers(env, FollowPath(d.value, ["liteservers"]).value.items))
  {
    var d := env.jsonDecode(jsonData);
    if d.Success? && d.value.JObject? {
      FollowOne(d.value, "liteservers");
    }
  }

  /** The liteserver filter keeps accepted entries in order, as the static-node filter does. */
  lemma {:induction false} LiteserversConcat(env: ParserEnv, a: seq<Json>, b: seq<Json>)
    ensures FilterLiteservers(env, a + b) == FilterLiteservers(env, a) + FilterLiteservers(env, b)
    decreases |b|
  {
    if b == [] {
      assert a + b == a;
    } else {
      assert (a + b)[..|a + b| - 1] == a + b[..|b| - 1];
      LiteserversConcat(env, a, b[..|b| - 1]);
    }
  }

  /** The filter of one server is that server's verdict. */
  lemma LiteserversSingle(env: ParserEnv, server: Json)
    ensures FilterLiteservers(env, [server]) ==
            if LiteserverOf(env, server).Some? then [LiteserverOf(env, server).value] else []
  {
    assert [server][..0] == [];
  }

  /** The result is no longer than the array, and each accepted server is the verdict on some entry. */
  lemma {:induction false} LiteserversBounded(env: ParserEnv, servers: seq<Json>)
    ensures |FilterLiteservers(env, servers)| <= |servers|
    ensures forall k :: 0 <= k < |FilterLiteservers(env, servers)| ==>
              exists i :: 0 <= i < |servers| && LiteserverOf(env, servers[i]) == Some(FilterLiteservers(env, servers)[k])
    decreases |servers|
  {
    if servers != [] {
      var init := servers[..|servers| - 1];
      LiteserversBounded(env, init);
      var f := FilterLiteservers(env, servers);
      forall k | 0 <= k < |f|
        ensures exists i :: 0 <= i < |servers| && LiteserverOf(env, servers[i]) == Some(f[k])
      {
        if k < |FilterLiteservers(env, init)| {
          var i :| 0 <= i < |init| && LiteserverOf(env, init[i]) == Some(FilterLiteservers(env, init)[k]);
          assert servers[i] == init[i];
        } else {
          assert LiteserverOf(env, servers[|servers| - 1]) == Some(f[k]);
        }
      }
    }
  }

  // ----- default overlay ids

  /** ton::shardIdAll */
  const ShardIdAll: nat := 0x8000_0000_0000_0000

  /** The exported Ed25519 public key built from a 256-bit value: the full
      id of an overlay is made from these bytes. */
  type OverlayIdFull = seq<byte>

  /** extract_default_overlay_ids: both ids are built from the masterchain
      object's root hash; the basechain object is built and not used. */
  function DefaultOverlayIds(exportEd25519: nat -> OverlayIdFull): seq<OverlayIdFull>
  {
    var masterchainBlocks := BlockId(MasterchainId, ShardIdAll, 0, 0, 0);
    var basechainBlocks := BlockId(BasechainId, ShardIdAll, 0, 0, 0);
    [exportEd25519(masterchainBlocks.rootHash), exportEd25519(masterchainBlocks.rootHash)]
  }

  /** Two ids, and they are the same id; taking the basechain root hash instead
      would not separate them either, both root hashes being zero. */
  lemma DefaultOverlayIdsCoincide(exportEd25519: nat -> OverlayIdFull)
    ensures |DefaultOverlayIds(exportEd25519)| == 2
    ensures DefaultOverlayIds(exportEd25519)[0] == DefaultOverlayIds(exportEd25519)[1]
    ensures DefaultOverlayIds(exportEd25519)[1] == exportEd25519(BlockId(BasechainId, ShardIdAll, 0, 0, 0).rootHash)
  {
  }
}
