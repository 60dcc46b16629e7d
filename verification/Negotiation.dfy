/**
 Protocol version negotiation: the client writes the versions it has plugins for into an
 environment variable (client.go:740-764), the server picks one (server.go:149-221), and the
 client looks the answer up in its own table (client.go:1175-1197).
*/
module Negotiation {
  import opened Basics
  import opened Text

  const NETRPC := "netrpc"
  const GRPC := "grpc"

  type Uint = n: nat | n < 0x1_0000_0000_0000_0000

  /** int(v) for a uint: the same bits. */
  function Signed(v: Uint): (n: Int)
    ensures n == v || n == v - 0x1_0000_0000_0000_0000
  {
    if v <= MAX_INT then v else v - 0x1_0000_0000_0000_0000
  }

  /** A plugin implementation; `grpc` says it implements GRPCPlugin. */
  datatype Plugin = Plugin(impl: nat, grpc: bool)

  type PluginSet = map<string, Plugin>

  /** VersionedPlugins */
  type Table = map<Int, PluginSet>

  /** `order` is an order in which Go may iterate over the table. */
  ghost predicate IterationOf(order: seq<Int>, t: Table)
  {
    && (forall v :: v in order <==> v in t)
    && (forall i, j :: 0 <= i < j < |order| ==> order[i] != order[j])
  }

  // ---------------------------------------------------------------- the client's list

  /** The client files Plugins under ProtocolVersion unless that version is taken. */
  function ClientTable(version: Uint, plugins: Option<PluginSet>, versioned: Table): Table
  {
    if Signed(version) !in versioned && plugins.Some? then versioned[Signed(version) := plugins.value] else versioned
  }

  function Itoas(vs: seq<Int>): (r: seq<string>)
    ensures |r| == |vs| && forall i :: 0 <= i < |vs| ==> r[i] == Itoa(vs[i])
  {
    seq(|vs|, i requires 0 <= i < |vs| => Itoa(vs[i]))
  }

  /** The value of PLUGIN_PROTOCOL_VERSIONS. */
  function EnvVersions(order: seq<Int>): string
  {
    Join(Itoas(order), ',')
  }

  // ---------------------------------------------------------------- the server's reading of it

  function ParseAll(fields: seq<string>): seq<Int>
  {
    if fields == [] then []
    else (if Atoi(fields[0]).Some? then [Atoi(fields[0]).value] else []) + ParseAll(fields[1..])
  }

  /** Unreadable entries are skipped, and an unset variable is an empty list. */
  function ParseVersions(env: string): seq<Int>
  {
    if env == "" then [] else ParseAll(Split(env, ','))
  }

  lemma {:induction false} ParseAllExactly(fields: seq<string>, v: Int)
    ensures v in ParseAll(fields) <==> exists i :: 0 <= i < |fields| && Atoi(fields[i]) == Some(v)
  {
    if fields != [] {
      ParseAllExactly(fields[1..], v);
      if v in ParseAll(fields[1..]) {
        var i :| 0 <= i < |fields[1..]| && Atoi(fields[1..][i]) == Some(v);
        assert Atoi(fields[i + 1]) == Some(v);
      }
      if i :| 0 <= i < |fields| && Atoi(fields[i]) == Some(v) {
        assert i > 0 ==> Atoi(fields[1..][i - 1]) == Some(v);
      }
    }
  }

  /** For every value of the variable, the server sees exactly the versions among its readable entries. */
  lemma {:induction false} EnvReadsExactly(env: string, v: Int)
    ensures v in ParseVersions(env) <==>
              exists i :: 0 <= i < |Split(env, ',')| && Spells(Split(env, ',')[i], v)
  {
    var fields := Split(env, ',');
    ParseAllExactly(fields, v);
    forall i | 0 <= i < |fields| ensures Atoi(fields[i]) == Some(v) <==> Spells(fields[i], v) { AtoiExactly(fields[i], v); }
  }

  lemma {:induction false} ParseItoas(order: seq<Int>)
    ensures ParseAll(Itoas(order)) == order
  {
    if order != [] {
      AtoiItoa(order[0]);
      assert Itoas(order)[1..] == Itoas(order[1..]);
      ParseItoas(order[1..]);
      assert order == [order[0]] + order[1..];
    }
  }

  /** The server reads exactly the list the client wrote. */
  lemma {:induction false} EnvRoundTrip(order: seq<Int>)
    ensures ParseVersions(EnvVersions(order)) == order
  {
    if order != [] {
      var fields := Itoas(order);
      SplitJoin(fields, ',');
      ParseItoas(order);
      assert EnvVersions(order) != "" by {
        assert fields[0] != [];
      }
    }
  }

  // ---------------------------------------------------------------- the server's choice

  /** The server files Plugins under ProtocolVersion, replacing what was there. */
  function ServerTable(version: Uint, plugins: Option<PluginSet>, versioned: Table): Table
  {
    if plugins.Some? then versioned[Signed(version) := plugins.value] else versioned
  }

  /** `v` is in both lists and no larger version is. */
  ghost predicate LargestCommon(t: Table, clientVersions: seq<Int>, v: Int)
  {
    v in t && v in clientVersions && forall w :: w in t && w in clientVersions ==> w <= v
  }

  ghost predicate NoneCommon(t: Table, clientVersions: seq<Int>)
  {
    forall w :: w in t ==> w !in clientVersions
  }

  /** What protocolVersion promises about the version: the largest common one, else the lowest it
      has, else the handshake's. */
  ghost predicate IsChoice(t: Table, handshake: Int, clientVersions: seq<Int>, v: Int)
  {
    || LargestCommon(t, clientVersions, v)
    || (NoneCommon(t, clientVersions) && v in t && forall w :: w in t ==> v <= w)
    || (t == map[] && v == handshake)
  }

  function Transport(p: Plugin): string
  {
    if p.grpc then GRPC else NETRPC
  }

  /** `w` is the lowest version from `v` upwards whose set is not empty. */
  ghost predicate Nearest(t: Table, v: Int, w: Int)
  {
    w in t && v <= w && t[w] != map[] && forall u :: u in t && v <= u < w ==> t[u] == map[]
  }

  ghost predicate Carries(plugs: PluginSet, proto: string)
  {
    exists name :: name in plugs && proto == Transport(plugs[name])
  }

  /** What it promises about the transport: with a gRPC server, that of a plugin in the nearest
      non-empty set from `v` upwards. */
  ghost predicate IsTransport(t: Table, grpcServer: bool, v: Int, proto: string)
  {
    if grpcServer && exists w :: Nearest(t, v, w) then exists w :: Nearest(t, v, w) && Carries(t[w], proto)
    else proto == NETRPC
  }

  predicate Descending(s: seq<Int>)
  {
    forall i, j :: 0 <= i < j < |s| ==> s[i] > s[j]
  }

  lemma HeadIsLargest(s: seq<Int>)
    requires s != [] && Descending(s)
    ensures Descending(s[1..]) && s == [s[0]] + s[1..]
    ensures forall y :: y in s[1..] ==> y < s[0]
  {
    forall y | y in s[1..] ensures y < s[0] {
      var k :| 0 <= k < |s[1..]| && s[1..][k] == y;
      assert s[0] > s[k + 1];
    }
  }

  lemma PrependLargest(h: Int, s: seq<Int>)
    requires Descending(s) && forall y :: y in s ==> y < h
    ensures Descending([h] + s) && forall y :: y in [h] + s <==> y == h || y in s
  {
    forall i, j | 0 <= i < j < |s| + 1 ensures ([h] + s)[i] > ([h] + s)[j] {
      assert s[j - 1] in s;
    }
  }

  function Insert(x: Int, s: seq<Int>): (r: seq<Int>)
    requires Descending(s) && x !in s
    ensures Descending(r) && forall y :: y in r <==> y == x || y in s
  {
    if s == [] then [x]
    else
      HeadIsLargest(s);
      if x > s[0] then
        PrependLargest(x, s);
        [x] + s
      else
        PrependLargest(s[0], Insert(x, s[1..]));
        [s[0]] + Insert(x, s[1..])
  }

  /** sort.Sort(sort.Reverse(sort.IntSlice(s))) on the distinct keys of a table. */
  function SortReverse(s: seq<Int>): (r: seq<Int>)
    requires forall i, j :: 0 <= i < j < |s| ==> s[i] != s[j]
    ensures Descending(r) && forall y :: y in r <==> y in s
  {
    if s == [] then []
    else
      assert s == [s[0]] + s[1..];
      Insert(s[0], SortReverse(s[1..]))
  }

  /** `versions` are the keys of the table, newest first. */
  ghost predicate AllVersions(versions: seq<Int>, t: Table)
  {
    Descending(versions) && forall v :: v in versions <==> v in t
  }

  ghost predicate NoneBefore(versions: seq<Int>, i: nat, clientVersions: seq<Int>)
  {
    i <= |versions| && forall j :: 0 <= j < i ==> versions[j] !in clientVersions
  }

  lemma {:induction false} FirstIsLargest(t: Table, versions: seq<Int>, i: nat, clientVersions: seq<Int>)
    requires AllVersions(versions, t) && NoneBefore(versions, i, clientVersions)
    requires i < |versions| && versions[i] in clientVersions
    ensures LargestCommon(t, clientVersions, versions[i])
  {
    forall w | w in t && w in clientVersions ensures w <= versions[i] {
      var k :| 0 <= k < |versions| && versions[k] == w;
    }
  }

  lemma {:induction false} LastIsLowest(t: Table, versions: seq<Int>, clientVersions: seq<Int>)
    requires AllVersions(versions, t) && NoneBefore(versions, |versions|, clientVersions)
    ensures NoneCommon(t, clientVersions)
    ensures if versions == [] then t == map[]
            else versions[|versions| - 1] in t && forall w :: w in t ==> versions[|versions| - 1] <= w
  {
    forall w | w in t ensures w !in clientVersions && versions != [] && versions[|versions| - 1] <= w {
      var k :| 0 <= k < |versions| && versions[k] == w;
    }
  }

  /** Passing a version by keeps the transport promise: an empty set changes nothing. */
  lemma {:induction false} Inherit(t: Table, versions: seq<Int>, i: nat, grpcServer: bool, carried: string, proto: string)
    requires AllVersions(versions, t) && i < |versions|
    requires if i > 0 then IsTransport(t, grpcServer, versions[i - 1], carried) else carried == NETRPC
    requires if grpcServer && t[versions[i]] != map[] then Carries(t[versions[i]], proto) else proto == carried
    ensures IsTransport(t, grpcServer, versions[i], proto)
  {
    var v := versions[i];
    if grpcServer && t[v] != map[] {
      assert Nearest(t, v, v);
    } else if grpcServer {
      forall w ensures Nearest(t, v, w) <==> i > 0 && Nearest(t, versions[i - 1], w) {
        forall u | u in t && v < u ensures i > 0 && versions[i - 1] <= u {
          var k :| 0 <= k < |versions| && versions[k] == u;
        }
      }
    }
  }

  /** The loop of protocolVersion (server.go:188-220) over the versions, newest first. */
  method Choose(table: Table, handshake: Int, grpcServer: bool, clientVersions: seq<Int>, versions: seq<Int>)
    returns (v: Int, proto: string)
    requires AllVersions(versions, table)
    ensures IsChoice(table, handshake, clientVersions, v)
    ensures IsTransport(table, grpcServer, v, proto)
  {
    v, proto := handshake, NETRPC;
    for i := 0 to |versions|
      invariant NoneBefore(versions, i, clientVersions)
      invariant if i == 0 then v == handshake && proto == NETRPC
                else v == versions[i - 1] && IsTransport(table, grpcServer, v, proto)
    {
      ghost var carried := proto;
      v := versions[i];
      var plugs := table[v];
      if grpcServer && plugs != map[] {
        var name :| name in plugs;
        proto := if plugs[name].grpc then GRPC else NETRPC;
        assert Carries(plugs, proto);
      }
      Inherit(table, versions, i, grpcServer, carried, proto);
      if v in clientVersions {
        FirstIsLargest(table, versions, i, clientVersions);
        return;
      }
    }
    LastIsLowest(table, versions, clientVersions);
  }

  /** ServeConfig; protocolVersion files Plugins into VersionedPlugins in place. */
  class ServeConfig {
    const version: Uint
    const plugins: Option<PluginSet>
    const grpcServer: bool
    var versionedPlugins: Table

    constructor (version: Uint, plugins: Option<PluginSet>, grpcServer: bool, versionedPlugins: Table)
      ensures this.version == version && this.plugins == plugins && this.grpcServer == grpcServer
      ensures this.versionedPlugins == versionedPlugins
    {
      this.version, this.plugins, this.grpcServer, this.versionedPlugins := version, plugins, grpcServer, versionedPlugins;
    }

    /** Plugins replace what the table has under ProtocolVersion (server.go:171-178). */
    method FilePlugins()
      modifies this`versionedPlugins
      ensures versionedPlugins == ServerTable(version, plugins, old(versionedPlugins))
      ensures forall u :: u in versionedPlugins <==> u in old(versionedPlugins) || (u == Signed(version) && plugins.Some?)
      ensures forall u :: u in versionedPlugins ==>
                versionedPlugins[u] == if u == Signed(version) && plugins.Some? then plugins.value else old(versionedPlugins)[u]
    {
      if plugins.Some? {
        versionedPlugins := versionedPlugins[Signed(version) := plugins.value];
      }
    }

    /** protocolVersion (server.go:149-221).  `order` is the order in which the table is iterated. */
    method ProtocolVersion(env: string, order: seq<Int>) returns (v: Int, proto: string, plugs: PluginSet)
      requires IterationOf(order, ServerTable(version, plugins, versionedPlugins))
      modifies this
      ensures versionedPlugins == ServerTable(version, plugins, old(versionedPlugins))
      ensures IsChoice(versionedPlugins, Signed(version), ParseVersions(env), v)
      ensures IsTransport(versionedPlugins, grpcServer, v, proto)
      ensures plugs == if v in versionedPlugins then versionedPlugins[v] else map[]
    {
      FilePlugins();
      var versions := SortReverse(order);
      v, proto := Choose(versionedPlugins, Signed(version), grpcServer, ParseVersions(env), versions);
      plugs := if v in versionedPlugins then versionedPlugins[v] else map[];
    }
  }

  // ---------------------------------------------------------------- both sides together

  /** For all tables and every iteration order: if the two sides share a version the server answers
      with the largest shared one, which the client has, and otherwise a server with any plugins
      answers with a version the client does not have. */
  lemma {:induction false} NegotiationAgrees(
      client: Table, order: seq<Int>, server: Table, handshake: Int, v: Int)
    requires IterationOf(order, client)
    requires IsChoice(server, handshake, ParseVersions(EnvVersions(order)), v)
    ensures (exists w :: w in server && w in client) ==>
              v in server && v in client && forall w :: w in server && w in client ==> w <= v
    ensures (forall w :: w in server ==> w !in client) && server != map[] ==> v !in client
    ensures server == map[] ==> v == handshake
  {
    EnvRoundTrip(order);
  }

  ghost predicate Uniform(plugs: PluginSet)
  {
    forall m, n :: m in plugs && n in plugs ==> plugs[m].grpc == plugs[n].grpc
  }

  /** The transport a set calls for: that of its plugins, or net/rpc if it has none. */
  ghost predicate OwnTransport(plugs: PluginSet, proto: string)
  {
    if plugs == map[] then proto == NETRPC else Carries(plugs, proto)
  }

  /** With sets that do not mix transports, the announced transport is the one the chosen set calls
      for exactly when that set has a plugin or no gRPC set follows it before a net/rpc one. */
  lemma {:induction false} TransportMatchesSet(t: Table, v: Int, proto: string)
    requires v in t && IsTransport(t, true, v, proto) && forall w :: w in t ==> Uniform(t[w])
    ensures OwnTransport(t[v], proto) <==>
              t[v] != map[] || forall w, name :: Nearest(t, v, w) && name in t[w] ==> !t[w][name].grpc
  {
    if t[v] != map[] {
      assert Nearest(t, v, v);
      var w :| Nearest(t, v, w) && Carries(t[w], proto);
    } else if w :| Nearest(t, v, w) {
      var u :| Nearest(t, v, u) && Carries(t[u], proto);
      assert u == w;
    }
  }

  /** A version without plugins is announced as gRPC when a newer one has a gRPC plugin: protocolVersion
      gives a client that has only version `a` an empty set over gRPC. */
  method EmptySetInheritsTransport(version: Uint, a: Int, b: Int, name: string, p: Plugin, order: seq<Int>)
    returns (v: Int, proto: string, plugs: PluginSet)
    requires a < b && p.grpc && IterationOf(order, map[a := map[], b := map[name := p]])
    ensures v == a && proto == GRPC && plugs == map[]
  {
    var t: Table := map[a := map[], b := map[name := p]];
    var config := new ServeConfig(version, None, true, t);
    EnvRoundTrip([a]);
    v, proto, plugs := config.ProtocolVersion(EnvVersions([a]), order);
    assert a in t && b in t && name in t[b];
    assert Nearest(t, a, b);
    ghost var w :| Nearest(t, a, w) && Carries(t[w], proto);
    assert w == b;
  }
}
