/**
 The handshake line: what Serve prints (server.go:440-462), what Start makes of the first line
 of the plugin's stdout (client.go:961-1072), and what a client that reattaches adopts
 (client.go:1097-1170, 1208-1236).
*/
module Handshake {
  import opened Basics
  import opened Text
  import opened Negotiation

  const CORE_PROTOCOL_VERSION: Int := 1

  type NetAddr = (string, string)

  datatype Addr = Addr(network: string, text: string)

  /** What the client calls into: the runner's translator, net's resolvers and x509's parser. */
  datatype World = World(
    pluginToHost: NetAddr -> Option<NetAddr>,
    resolveTcp: string -> Option<string>,
    resolveUnix: string -> Option<string>,
    parseCert: seq<Byte> -> bool)

  // ---------------------------------------------------------------- the line

  function Fields(v: Int, at: NetAddr, proto: string, cert: string, mux: bool): (fs: seq<string>)
    ensures |fs| == if mux then 7 else 6
  {
    [Itoa(CORE_PROTOCOL_VERSION), Itoa(v), at.0, at.1, proto, cert] + if mux then ["true"] else []
  }

  /** What Serve prints, up to the newline. */
  function Line(v: Int, at: NetAddr, proto: string, cert: string, mux: bool): string
  {
    Join(Fields(v, at, proto, cert, mux), '|')
  }

  /** bufio.ScanLines: up to the first newline, without a carriage return before it. */
  function FirstLine(s: string): string
  {
    var line := Split(s, '\n')[0];
    if line != [] && line[|line| - 1] == '\r' then line[..|line| - 1] else line
  }

  function Parts(line: string): (r: seq<string>)
    ensures r != []
  {
    Split(TrimSpace(line), '|')
  }

  /** Fields that fit on the line: no separator and no line break. */
  predicate Plain(f: string)
  {
    '|' !in f && '\n' !in f
  }

  lemma {:induction false} ItoaIsPlain(n: int)
    ensures Plain(Itoa(n))
  {
  }

  lemma {:induction false} JoinEnds(fs: seq<string>, sep: char)
    requires |fs| >= 2 && fs[0] != []
    ensures var s := Join(fs, sep);
            var last := fs[|fs| - 1];
            |s| >= 2 && s[0] == fs[0][0] && s[|s| - 1] == if last == [] then sep else last[|last| - 1]
  {
    var rest := Join(fs[1..], sep);
    assert Join(fs, sep) == fs[0] + [sep] + rest;
    JoinLast(fs[1..], sep);
  }

  lemma {:induction false} JoinLast(fs: seq<string>, sep: char)
    requires fs != []
    ensures var s := Join(fs, sep);
            var last := fs[|fs| - 1];
            && (last != [] ==> s != [] && s[|s| - 1] == last[|last| - 1])
            && (last == [] ==> if |fs| == 1 then s == [] else s != [] && s[|s| - 1] == sep)
  {
    if |fs| > 1 {
      JoinLast(fs[1..], sep);
    }
  }

  lemma {:induction false} JoinIsPlain(fs: seq<string>, sep: char, c: char)
    requires c != sep && forall i :: 0 <= i < |fs| ==> c !in fs[i]
    ensures c !in Join(fs, sep)
  {
    if |fs| > 1 {
      JoinIsPlain(fs[1..], sep, c);
    }
  }

  lemma {:induction false} FieldsArePlain(v: Int, at: NetAddr, proto: string, cert: string, mux: bool)
    requires Plain(at.0) && Plain(at.1) && Plain(proto)
    requires forall i :: 0 <= i < |cert| ==> IsLetter(cert[i])
    ensures forall i :: 0 <= i < |Fields(v, at, proto, cert, mux)| ==> Plain(Fields(v, at, proto, cert, mux)[i])
  {
    ItoaIsPlain(CORE_PROTOCOL_VERSION);
    ItoaIsPlain(v);
    assert Plain(cert) && Plain("true");
  }

  /** A line that neither begins nor ends in a blank is read as it is. */
  lemma {:induction false} LineIsRead(line: string, more: string)
    requires '\n' !in line && |line| >= 2 && !IsSpace(line[0]) && !IsSpace(line[|line| - 1])
    ensures FirstLine(line + "\n" + more) == line && TrimSpace(line) == line
  {
    SplitField(line, more, '\n');
  }

  /** The line begins with the core version and ends in a letter, a separator, or "true". */
  lemma {:induction false} LineHasNoBlankEnds(v: Int, at: NetAddr, proto: string, cert: string, mux: bool)
    requires forall i :: 0 <= i < |cert| ==> IsLetter(cert[i])
    ensures var line := Line(v, at, proto, cert, mux); |line| >= 2 && !IsSpace(line[0]) && !IsSpace(line[|line| - 1])
  {
    var fs := Fields(v, at, proto, cert, mux);
    JoinEnds(fs, '|');
    assert fs[|fs| - 1] == if mux then "true" else cert;
    assert fs[0][0] == '-' || IsDigit(fs[0][0]);
  }

  /** For plain network, address and protocol and a base64 certificate, the client reads back every
      field of the first line of stdout: six of them, or seven when multiplexing was requested. */
  lemma {:induction false} LineRoundTrip(v: Int, at: NetAddr, proto: string, cert: string, mux: bool, more: string)
    requires Plain(at.0) && Plain(at.1) && Plain(proto)
    requires forall i :: 0 <= i < |cert| ==> IsLetter(cert[i])
    ensures Parts(FirstLine(Line(v, at, proto, cert, mux) + "\n" + more)) == Fields(v, at, proto, cert, mux)
  {
    var fs := Fields(v, at, proto, cert, mux);
    FieldsArePlain(v, at, proto, cert, mux);
    JoinIsPlain(fs, '|', '\n');
    LineHasNoBlankEnds(v, at, proto, cert, mux);
    LineIsRead(Line(v, at, proto, cert, mux), more);
    SplitJoin(fs, '|');
  }

  // ---------------------------------------------------------------- what Start asks of a line

  /** The version part names a version the client has plugins for. */
  predicate VersionOk(table: Table, parts: seq<string>)
  {
    |parts| >= 4 && Atoi(parts[0]) == Some(CORE_PROTOCOL_VERSION) && Atoi(parts[1]).Some? && Atoi(parts[1]).value in table
  }

  /** The address after translation and resolution. */
  function Endpoint(w: World, parts: seq<string>): Option<Addr>
    requires |parts| >= 4
  {
    var at := w.pluginToHost((parts[2], parts[3]));
    if at.None? then None
    else if at.value.0 == "tcp" then
      (var r := w.resolveTcp(at.value.1); if r.Some? then Some(Addr("tcp", r.value)) else None)
    else if at.value.0 == "unix" then
      (var r := w.resolveUnix(at.value.1); if r.Some? then Some(Addr("unix", r.value)) else None)
    else None
  }

  function ProtocolPart(parts: seq<string>): string
  {
    if |parts| >= 5 then parts[4] else NETRPC
  }

  /** Sixth fields of up to 50 characters are "extra" data of old implementations. */
  predicate HasCert(parts: seq<string>)
  {
    |parts| >= 6 && |parts[5]| > 50
  }

  predicate CertParses(w: World, parts: seq<string>)
    requires HasCert(parts)
  {
    Decode64(parts[5]).Some? && w.parseCert(Decode64(parts[5]).value)
  }

  predicate MuxConfirmed(parts: seq<string>)
  {
    |parts| > 6 && ParseBool(parts[6]) == Some(true)
  }

  /** Everything Start checks before it looks at the certificate. */
  predicate GoodSoFar(table: Table, allowed: seq<string>, w: World, parts: seq<string>)
  {
    VersionOk(table, parts) && Endpoint(w, parts).Some? && ProtocolPart(parts) in allowed
  }

  predicate Acceptable(table: Table, allowed: seq<string>, mux: bool, tls: bool, w: World, parts: seq<string>)
  {
    && GoodSoFar(table, allowed, w, parts)
    && (HasCert(parts) ==> CertParses(w, parts) && tls)
    && (mux && ProtocolPart(parts) == GRPC ==> MuxConfirmed(parts))
  }

  /** A certificate the client has no TLS configuration to put it in. */
  predicate Crashes(table: Table, allowed: seq<string>, tls: bool, w: World, parts: seq<string>)
  {
    GoodSoFar(table, allowed, w, parts) && HasCert(parts) && CertParses(w, parts) && !tls
  }

  /** The line that Start refuses with an address already resolved, and returns both (client.go:1041-1045). */
  predicate AddressWithError(table: Table, allowed: seq<string>, w: World, parts: seq<string>)
  {
    VersionOk(table, parts) && Endpoint(w, parts).Some? && ProtocolPart(parts) !in allowed
  }

  // ---------------------------------------------------------------- the same, part by part

  /** The address `at` of the line leads to `a`: it is translated, and then resolved by its network. */
  ghost predicate Resolves(w: World, at: NetAddr, a: Option<Addr>)
  {
    match w.pluginToHost(at)
    case None => a.None?
    case Some(to) =>
      if to.0 == "unix" then
        (match w.resolveUnix(to.1) case Some(q) => a == Some(Addr("unix", q)) case None => a.None?)
      else if to.0 == "tcp" then
        (match w.resolveTcp(to.1) case Some(q) => a == Some(Addr("tcp", q)) case None => a.None?)
      else a.None?
  }

  function LineProtocol(parts: seq<string>): string
  {
    if |parts| <= 4 then "netrpc" else parts[4]
  }

  /** What a line has to be for Start to record address `a`. */
  ghost predicate Fits(table: Table, allowed: seq<string>, mux: bool, tls: bool, w: World, parts: seq<string>, a: Addr)
  {
    && |parts| >= 4 && Atoi(parts[0]) == Some(1) && Atoi(parts[1]).Some? && Atoi(parts[1]).value in table
    && Resolves(w, (parts[2], parts[3]), Some(a)) && LineProtocol(parts) in allowed
    && (|parts| > 5 && |parts[5]| > 50 ==> tls && Decode64(parts[5]).Some? && w.parseCert(Decode64(parts[5]).value))
    && (mux && LineProtocol(parts) == "grpc" ==> |parts| > 6 && parts[6] in {"1", "t", "T", "TRUE", "true", "True"})
  }

  lemma {:induction false} EndpointIs(w: World, parts: seq<string>, a: Option<Addr>)
    requires |parts| >= 4
    ensures Resolves(w, (parts[2], parts[3]), a) <==> Endpoint(w, parts) == a
  {
  }

  lemma {:induction false} AcceptableFits(
      table: Table, allowed: seq<string>, mux: bool, tls: bool, w: World, parts: seq<string>, a: Addr)
    ensures Fits(table, allowed, mux, tls, w, parts, a) <==>
              Acceptable(table, allowed, mux, tls, w, parts) && Endpoint(w, parts) == Some(a)
  {
    if |parts| >= 4 {
      EndpointIs(w, parts, Some(a));
    }
  }

  lemma {:induction false} FitsExactly(
      table: Table, allowed: seq<string>, mux: bool, tls: bool, w: World, parts: seq<string>, address: Option<Addr>)
    requires address.Some? <==> Acceptable(table, allowed, mux, tls, w, parts)
    requires address.Some? ==> address == Endpoint(w, parts)
    ensures forall a :: address == Some(a) <==> Fits(table, allowed, mux, tls, w, parts, a)
  {
    forall a ensures address == Some(a) <==> Fits(table, allowed, mux, tls, w, parts, a) {
      AcceptableFits(table, allowed, mux, tls, w, parts, a);
    }
  }

  // ---------------------------------------------------------------- the client

  /** What Start's select sees first. */
  datatype First = TimedOut | PluginExited | Stdout(line: string)

  class Client {
    const version: Uint
    const allowed: seq<string>
    const mux: bool
    const tls: bool
    var plugins: Option<PluginSet>
    var versionedPlugins: Table
    var address: Option<Addr>
    var protocol: string
    var negotiatedVersion: Int
    var serverCert: Option<seq<Byte>>
    var runnerKilled: bool

    constructor (version: Uint, allowed: seq<string>, mux: bool, tls: bool, plugins: Option<PluginSet>, versionedPlugins: Table)
      ensures this.version == version && this.allowed == allowed && this.mux == mux && this.tls == tls
      ensures this.plugins == plugins && this.versionedPlugins == versionedPlugins
      ensures address.None? && !runnerKilled && negotiatedVersion == 0 && protocol == ""
    {
      this.version, this.allowed, this.mux, this.tls := version, allowed, mux, tls;
      this.plugins, this.versionedPlugins := plugins, versionedPlugins;
      address, protocol, negotiatedVersion, serverCert, runnerKilled := None, "", 0, None, false;
    }

    /** checkProtoVersion (client.go:1175-1197), over the table in any order. */
    method CheckProtoVersion(text: string, order: seq<Int>) returns (r: Result<(Int, PluginSet), seq<Int>>)
      requires IterationOf(order, versionedPlugins)
      ensures r.Ok? <==> Atoi(text).Some? && Atoi(text).value in versionedPlugins
      ensures r.Ok? ==> r.value == (Atoi(text).value, versionedPlugins[Atoi(text).value])
      ensures r.Err? && Atoi(text).Some? ==> r.error == order
    {
      var serverVersion := Atoi(text);
      if serverVersion.None? {
        return Err([]);
      }
      var clientVersions: seq<Int> := [];
      for i := 0 to |order|
        invariant clientVersions == order[..i] && serverVersion.value !in order[..i]
      {
        clientVersions := clientVersions + [order[i]];
        if serverVersion.value == order[i] {
          return Ok((order[i], versionedPlugins[order[i]]));
        }
      }
      assert order[..|order|] == order;
      return Err(clientVersions);
    }

    /** The address part of the line (client.go:1013-1031). */
    static method ResolveEndpoint(w: World, network: string, text: string) returns (r: Result<Addr, string>)
      ensures Resolves(w, (network, text), if r.Ok? then Some(r.value) else None)
    {
      var at := w.pluginToHost((network, text));
      if at.None? { return Err("untranslatable address"); }
      if at.value.0 == "tcp" {
        var resolved := w.resolveTcp(at.value.1);
        if resolved.None? { return Err("bad tcp address"); }
        return Ok(Addr("tcp", resolved.value));
      } else if at.value.0 == "unix" {
        var resolved := w.resolveUnix(at.value.1);
        if resolved.None? { return Err("bad unix address"); }
        return Ok(Addr("unix", resolved.value));
      } else {
        return Err("unknown address type");
      }
    }

    /** The line arm of Start's select.  `addr` and `err` are Start's named results: the arm sets them,
        or returns early with values for them, and `inner` is the err that shadows the named one from
        the version check on. */
    method ReadHandshake(w: World, line: string, order: seq<Int>)
      returns (addr: Option<Addr>, err: Option<string>, early: bool, panicked: bool)
      requires IterationOf(order, versionedPlugins)
      modifies this`plugins, this`negotiatedVersion, this`protocol, this`serverCert
      ensures var parts := Parts(line);
              && (early <==> !Acceptable(versionedPlugins, allowed, mux, tls, w, parts))
              && (panicked <==> Crashes(versionedPlugins, allowed, tls, w, parts))
              && (err.Some? <==> early && !panicked)
              && (!early ==> addr == Endpoint(w, parts) && protocol == ProtocolPart(parts))
              && (early ==> addr == if AddressWithError(versionedPlugins, allowed, w, parts) then Endpoint(w, parts) else None)
              && (if VersionOk(versionedPlugins, parts) then
                    negotiatedVersion == Atoi(parts[1]).value && plugins == Some(versionedPlugins[Atoi(parts[1]).value])
                  else
                    negotiatedVersion == old(negotiatedVersion) && plugins == old(plugins))
              && (!early ==> serverCert == if HasCert(parts) then Decode64(parts[5]) else old(serverCert))
    {
      addr, err, early, panicked := None, None, true, false;
      var parts := Split(TrimSpace(line), '|');
      if |parts| < 4 { err := Some("unrecognized remote plugin message"); return; }
      var core := Atoi(parts[0]);
      if core.None? { err := Some("error parsing core protocol version"); return; }
      if core.value != CORE_PROTOCOL_VERSION { err := Some("incompatible core API version"); return; }
      var checked := CheckProtoVersion(parts[1], order);
      var inner := if checked.Err? then Some("incompatible API version") else None;
      if inner.Some? { err := inner; return; }
      plugins := Some(checked.value.1);
      negotiatedVersion := checked.value.0;
      var resolved := ResolveEndpoint(w, parts[2], parts[3]);
      EndpointIs(w, parts, if resolved.Ok? then Some(resolved.value) else None);
      inner := if resolved.Err? then Some(resolved.error) else None;
      if inner.Some? { err := inner; return; }
      addr := Some(resolved.value);
      protocol := NETRPC;
      if |parts| >= 5 {
        protocol := parts[4];
      }
      if protocol !in allowed {
        inner := Some("unsupported plugin protocol");
        err := inner;
        return;
      }
      if |parts| >= 6 && |parts[5]| > 50 {
        var asn1 := Decode64(parts[5]);
        if asn1.None? || !w.parseCert(asn1.value) { addr, err := None, Some("error parsing server cert"); return; }
        if !tls { addr, panicked := None, true; return; }
        serverCert := asn1;
      }
      if mux && protocol == GRPC {
        if |parts| <= 6 { addr, err := None, Some("multiplexing not supported"); return; }
        var supported := ParseBool(parts[6]);
        if supported.None? { addr, err := None, Some("error parsing multiplexing support"); return; }
        if !supported.value { addr, err := None, Some("multiplexing not supported"); return; }
      }
      early := false;
    }

    /** The client's own Plugins join the table under ProtocolVersion, unless that is taken (client.go:744-752). */
    method FilePlugins()
      modifies this`versionedPlugins
      ensures versionedPlugins == ClientTable(version, plugins, old(versionedPlugins))
      ensures forall u :: u in versionedPlugins <==> u in old(versionedPlugins) || (u == Signed(version) && plugins.Some?)
      ensures forall u :: u in versionedPlugins ==>
                versionedPlugins[u] == if u in old(versionedPlugins) then old(versionedPlugins)[u] else plugins.value
    {
      if Signed(version) !in versionedPlugins && plugins.Some? {
        versionedPlugins := versionedPlugins[Signed(version) := plugins.value];
      }
    }

    /** Start from its version table on (client.go:740-764, 864-875, 961-1072), the plugin having been
        launched.  `addr` and `err` are the named results; the deferred function reads the named err. */
    method Start(w: World, first: First, order: seq<Int>) returns (addr: Option<Addr>, err: Option<string>, panicked: bool)
      requires IterationOf(order, ClientTable(version, plugins, versionedPlugins))
      modifies this
      ensures old(address).Some? ==> addr == old(address) && err.None? && !panicked && unchanged(this)
      ensures old(address).None? ==>
                && versionedPlugins == ClientTable(version, old(plugins), old(versionedPlugins))
                && runnerKilled == (old(runnerKilled) || err.Some? || panicked)
                && (address.Some? <==> err.None? && !panicked)
                && (address.Some? ==> addr == address)
      ensures old(address).None? && address.Some? ==>
                && protocol in allowed && negotiatedVersion in versionedPlugins
                && plugins == Some(versionedPlugins[negotiatedVersion])
                && first.Stdout? && (mux && protocol == GRPC ==> MuxConfirmed(Parts(first.line)))
      ensures old(address).None? && first.Stdout? ==>
                var parts := Parts(first.line);
                && (address.Some? <==> Acceptable(versionedPlugins, allowed, mux, tls, w, parts))
                && (panicked <==> Crashes(versionedPlugins, allowed, tls, w, parts))
                && (address.Some? ==> address == Endpoint(w, parts) && protocol == ProtocolPart(parts)
                                      && Atoi(parts[1]) == Some(negotiatedVersion))
      ensures old(address).None? && first.Stdout? ==>
                forall a :: address == Some(a) <==> Fits(versionedPlugins, allowed, mux, tls, w, Parts(first.line), a)
      ensures old(address).None? && first.Stdout? && address.Some? ==>
                var parts := Parts(first.line);
                && protocol == LineProtocol(parts)
                && serverCert == if |parts| > 5 && |parts[5]| > 50 then Decode64(parts[5]) else old(serverCert)
      ensures old(address).None? ==>
                (addr.Some? && err.Some? <==>
                   first.Stdout? && AddressWithError(versionedPlugins, allowed, w, Parts(first.line)))
      ensures old(address).None? && address.None? ==>
                if first.Stdout? && VersionOk(versionedPlugins, Parts(first.line)) then
                  && negotiatedVersion == Atoi(Parts(first.line)[1]).value
                  && plugins == Some(versionedPlugins[negotiatedVersion])
                else
                  negotiatedVersion == old(negotiatedVersion) && plugins == old(plugins)
    {
      if address.Some? {
        return address, None, false;
      }
      FilePlugins();
      addr, err, panicked := None, None, false;
      var early := false;
      match first {
        case TimedOut => err := Some("timeout while waiting for plugin to start");
        case PluginExited => err := Some("plugin exited before we could connect");
        case Stdout(line) => addr, err, early, panicked := ReadHandshake(w, line, order);
      }
      if !early {
        address := addr;
      }
      // the deferred function
      if err.Some? || panicked {
        runnerKilled := true;
      }
      if first.Stdout? {
        ghost var parts := Parts(first.line);
        FitsExactly(versionedPlugins, allowed, mux, tls, w, parts, address);
      }
    }

    /** ReattachConfig (client.go:1208-1236) of a client that launched its plugin. */
    method ReattachInfo() returns (r: Option<ReattachConfig>)
      ensures r == if address.None? then None
                   else Some(ReattachConfig(protocol, negotiatedVersion, address.value))
    {
      if address.None? {
        return None;
      }
      return Some(ReattachConfig(protocol, negotiatedVersion, address.value));
    }

    /** reattach (client.go:1132-1160), once the process has been found. */
    method Reattach(c: ReattachConfig)
      modifies this
      ensures address == Some(c.addr) && negotiatedVersion == c.version
      ensures protocol == if c.protocol == "" then NETRPC else c.protocol
      ensures versionedPlugins == ReattachTable(old(plugins), old(versionedPlugins), c.version)
      ensures forall u :: u in versionedPlugins <==> u in old(versionedPlugins) || (u == c.version && old(plugins).Some?)
      ensures plugins == ReattachPlugins(old(plugins), old(versionedPlugins), c.version)
      ensures serverCert == old(serverCert) && runnerKilled == old(runnerKilled)
    {
      address := Some(c.addr);
      protocol := c.protocol;
      if protocol == "" {
        protocol := NETRPC;
      }
      negotiatedVersion := c.version;
      if negotiatedVersion !in versionedPlugins && plugins.Some? {
        versionedPlugins := versionedPlugins[negotiatedVersion := plugins.value];
      }
      if negotiatedVersion in versionedPlugins {
        plugins := Some(versionedPlugins[negotiatedVersion]);
      }
    }
  }

  // ---------------------------------------------------------------- end to end

  /** A line that leads to `a`, on this version and protocol and with this certificate. */
  ghost predicate Reads(table: Table, allowed: seq<string>, mux: bool, tls: bool, w: World, parts: seq<string>,
                        a: Addr, v: Int, proto: string, cert: seq<Byte>)
  {
    && Fits(table, allowed, mux, tls, w, parts, a) && Atoi(parts[1]) == Some(v) && LineProtocol(parts) == proto
    && (|Encode64(cert)| > 50 <==> |parts| > 5 && |parts[5]| > 50)
    && (|Encode64(cert)| > 50 ==> Decode64(parts[5]) == Some(cert))
  }

  /** The fields Serve prints lead a client that has the version to the server's address. */
  lemma {:induction false} FieldsRead(
      client: Table, v: Int, at: NetAddr, proto: string, cert: seq<Byte>, mux: bool,
      allowed: seq<string>, tls: bool, w: World, a: Addr)
    requires v in client && proto in allowed && Resolves(w, at, Some(a))
    requires |Encode64(cert)| > 50 ==> w.parseCert(cert) && tls
    ensures Reads(client, allowed, mux, tls, w, Fields(v, at, proto, Encode64(cert), mux), a, v, proto, cert)
  {
    AtoiItoa(CORE_PROTOCOL_VERSION);
    AtoiItoa(v);
    Decode64Encode64(cert);
  }

  /** Serve's line, read by the client that asked for it, is accepted with the largest common
      version, whatever follows on stdout; the certificate arrives byte for byte. */
  lemma {:induction false} SharedVersionConnects(
      client: Table, order: seq<Int>, server: Table, handshake: Int, v: Int,
      at: NetAddr, proto: string, cert: seq<Byte>, mux: bool, more: string,
      allowed: seq<string>, tls: bool, w: World, a: Addr)
    requires IterationOf(order, client) && exists u :: u in server && u in client
    requires IsChoice(server, handshake, ParseVersions(EnvVersions(order)), v)
    requires Plain(at.0) && Plain(at.1) && Plain(proto) && proto in allowed
    requires Resolves(w, at, Some(a))
    requires |Encode64(cert)| > 50 ==> w.parseCert(cert) && tls
    ensures var parts := Parts(FirstLine(Line(v, at, proto, Encode64(cert), mux) + "\n" + more));
            && Reads(client, allowed, mux, tls, w, parts, a, v, proto, cert)
            && v in client && (forall u :: u in server && u in client ==> u <= v)
  {
    LineRoundTrip(v, at, proto, Encode64(cert), mux, more);
    NegotiationAgrees(client, order, server, handshake, v);
    FieldsRead(client, v, at, proto, cert, mux, allowed, tls, w, a);
  }

  /** The second part, whatever comes after it. */
  lemma {:induction false} SecondPart(c: string, b: string, rest: string)
    requires c != [] && !IsSpace(c[0]) && '|' !in c && '|' !in b
    ensures var parts := Parts(c + "|" + b + "|" + rest); |parts| >= 2 && parts[1] == b
  {
    var p := c + "|" + b + "|";
    assert TrimLeft(p + rest) == p + rest by {
      assert (p + rest)[0] == c[0];
    }
    var z := TrimRightKeeps(p, rest);
    assert p + z == c + ['|'] + (b + ['|'] + z);
    SplitField(c, b + ['|'] + z, '|');
    SplitField(b, z, '|');
  }

  /** Whatever the address, the protocol and what follows, the second part of the first line is the version. */
  lemma {:induction false} VersionIsSecond(v: Int, at: NetAddr, proto: string, cert: string, mux: bool, more: string)
    ensures var parts := Parts(FirstLine(Line(v, at, proto, cert, mux) + "\n" + more));
            |parts| >= 2 && parts[1] == Itoa(v)
  {
    var c, b, rest := Itoa(CORE_PROTOCOL_VERSION), Itoa(v), Join(Fields(v, at, proto, cert, mux)[2..], '|');
    var p := c + "|" + b + "|";
    HeadOfLine(v, at, proto, cert, mux);
    ItoaIsPlain(CORE_PROTOCOL_VERSION);
    ItoaIsPlain(v);
    assert Line(v, at, proto, cert, mux) + "\n" + more == p + (rest + "\n" + more);
    var y := FirstLineKeeps(p, rest + "\n" + more);
    SecondPart(c, b, y);
  }

  lemma {:induction false} HeadOfLine(v: Int, at: NetAddr, proto: string, cert: string, mux: bool)
    ensures Line(v, at, proto, cert, mux) ==
            Itoa(CORE_PROTOCOL_VERSION) + "|" + Itoa(v) + "|" + Join(Fields(v, at, proto, cert, mux)[2..], '|')
  {
    var fs := Fields(v, at, proto, cert, mux);
    assert fs[1..][1..] == fs[2..];
    assert Join(fs[1..], '|') == Itoa(v) + ['|'] + Join(fs[2..], '|');
  }

  /** The first line begins with what precedes the first line break. */
  lemma {:induction false} FirstLineKeeps(p: string, s: string) returns (x: string)
    requires '\n' !in p && p != [] && p[|p| - 1] != '\r'
    ensures FirstLine(p + s) == p + x
  {
    SplitHead(p, s, '\n');
    var rest := Split(s, '\n')[0];
    var line := p + rest;
    if rest == [] {
      x := [];
      assert line == p;
    } else {
      assert line[|line| - 1] == rest[|rest| - 1];
      x := if rest[|rest| - 1] == '\r' then rest[..|rest| - 1] else rest;
      assert line[..|line| - 1] == p + rest[..|rest| - 1];
    }
  }

  /** Without a common version no line of that server is accepted, whatever its address, because its
      answer is never a version the client has. */
  lemma {:induction false} NoSharedVersionFails(
      client: Table, order: seq<Int>, server: Table, handshake: Int, v: Int,
      at: NetAddr, proto: string, cert: string, mux: bool, more: string,
      allowed: seq<string>, tls: bool, w: World)
    requires IterationOf(order, client) && server != map[] && forall u :: u in server ==> u !in client
    requires IsChoice(server, handshake, ParseVersions(EnvVersions(order)), v)
    ensures !Acceptable(client, allowed, mux, tls, w,
                        Parts(FirstLine(Line(v, at, proto, cert, mux) + "\n" + more)))
  {
    VersionIsSecond(v, at, proto, cert, mux, more);
    NegotiationAgrees(client, order, server, handshake, v);
    AtoiItoa(v);
  }

  /** The conditions on address, protocol and certificate under which nothing is against a server. */
  ghost predicate NothingAgainst(at: NetAddr, proto: string, allowed: seq<string>, cert: seq<Byte>, tls: bool, w: World, a: Addr)
  {
    && Plain(at.0) && Plain(at.1) && proto in allowed && Resolves(w, at, Some(a))
    && (|Encode64(cert)| > 50 ==> w.parseCert(cert) && tls)
  }

  /** What a client makes of the line of a server that it has launched. */
  lemma {:induction false} ServerLine(
      mine: Table, order: seq<Int>, theirs: Table, handshake: Int, grpcServer: bool, v: Int,
      at: NetAddr, proto: string, cert: seq<Byte>, mux: bool, more: string,
      allowed: seq<string>, tls: bool, w: World, a: Addr)
    requires IterationOf(order, mine) && IsTransport(theirs, grpcServer, v, proto)
    requires IsChoice(theirs, handshake, ParseVersions(EnvVersions(order)), v)
    ensures var parts := Parts(FirstLine(Line(v, at, proto, Encode64(cert), mux) + "\n" + more));
            if exists u :: u in theirs && u in mine then
              LargestCommon(theirs, order, v) &&
              (NothingAgainst(at, proto, allowed, cert, tls, w, a) ==> Reads(mine, allowed, mux, tls, w, parts, a, v, proto, cert))
            else theirs != map[] ==> !Acceptable(mine, allowed, mux, tls, w, parts)
  {
    EnvRoundTrip(order);
    NegotiationAgrees(mine, order, theirs, handshake, v);
    TransportIsPlain(theirs, grpcServer, v, proto);
    if exists u :: u in theirs && u in mine {
      if NothingAgainst(at, proto, allowed, cert, tls, w, a) {
        SharedVersionConnects(mine, order, theirs, handshake, v, at, proto, cert, mux, more, allowed, tls, w, a);
      }
    } else if theirs != map[] {
      NoSharedVersionFails(mine, order, theirs, handshake, v, at, proto, Encode64(cert), mux, more, allowed, tls, w);
    }
  }

  /** A server and a client that launches it: the environment, the server's choice, its line and the
      client's reading of it.  With a shared version, and nothing else against it, the client ends on the
      largest shared one with its own set for it; without, it fails and kills the server. */
  method Connect(client: Client, server: ServeConfig, w: World, at: NetAddr, cert: seq<Byte>, more: string,
                 clientOrder: seq<Int>, serverOrder: seq<Int>, ghost a: Addr)
    returns (v: Int, proto: string, started: bool)
    requires client.address.None?
    requires IterationOf(clientOrder, ClientTable(client.version, client.plugins, client.versionedPlugins))
    requires IterationOf(serverOrder, ServerTable(server.version, server.plugins, server.versionedPlugins))
    modifies client, server
    ensures var mine := ClientTable(client.version, old(client.plugins), old(client.versionedPlugins));
            var theirs := ServerTable(server.version, server.plugins, old(server.versionedPlugins));
            if exists u :: u in theirs && u in mine then
              LargestCommon(theirs, clientOrder, v) &&
              (NothingAgainst(at, proto, client.allowed, cert, client.tls, w, a) ==>
                 && started && client.address == Some(a) && client.negotiatedVersion == v
                 && client.plugins == Some(mine[v]) && client.protocol == proto
                 && (|Encode64(cert)| > 50 ==> client.serverCert == Some(cert)))
            else theirs != map[] ==> !started && client.address.None? && client.runnerKilled
  {
    ghost var mine := ClientTable(client.version, client.plugins, client.versionedPlugins);
    ghost var theirs := ServerTable(server.version, server.plugins, server.versionedPlugins);
    var env := EnvVersions(clientOrder);
    var plugs;
    v, proto, plugs := server.ProtocolVersion(env, serverOrder);
    var stdout := Line(v, at, proto, Encode64(cert), client.mux) + "\n" + more;
    ServerLine(mine, clientOrder, theirs, Signed(server.version), server.grpcServer, v, at, proto, cert, client.mux, more,
               client.allowed, client.tls, w, a);
    var addr, err, panicked := client.Start(w, Stdout(FirstLine(stdout)), clientOrder);
    started := err.None? && !panicked;
    EnvRoundTrip(clientOrder);
  }

  lemma TransportIsPlain(t: Table, grpcServer: bool, v: Int, proto: string)
    requires IsTransport(t, grpcServer, v, proto)
    ensures Plain(proto)
  {
  }

  /** A map's keys in the order Go happens to iterate over them. */
  method Iterate(t: Table) returns (order: seq<Int>)
    ensures IterationOf(order, t)
  {
    order := [];
    var left := t.Keys;
    while left != {}
      invariant left <= t.Keys && (forall v :: v in order <==> v in t && v !in left)
      invariant forall i, j :: 0 <= i < j < |order| ==> order[i] != order[j]
      decreases left
    {
      var v :| v in left;
      order, left := order + [v], left - {v};
    }
  }

  /** A Start that failed past its version check, and then another: the second offers the same versions
      if and only if ProtocolVersion was one of them, and otherwise ProtocolVersion too, with the set of
      the version that the first one refused. */
  method StartAgain(version: Uint, allowed: seq<string>, mux: bool, tls: bool, plugins: Option<PluginSet>, versioned: Table,
                    w: World, first: First, next: First)
    returns (offered: Table, again: Table, failed: bool)
    ensures offered == ClientTable(version, plugins, versioned)
    ensures failed && first.Stdout? && VersionOk(offered, Parts(first.line)) ==>
              && (again == offered <==> Signed(version) in offered)
              && (Signed(version) !in offered ==>
                    again == offered[Signed(version) := offered[Atoi(Parts(first.line)[1]).value]])
    ensures failed && !(first.Stdout? && VersionOk(offered, Parts(first.line))) ==> again == offered
  {
    var c := new Client(version, allowed, mux, tls, plugins, versioned);
    var order := Iterate(ClientTable(version, plugins, versioned));
    var addr, err, panicked := c.Start(w, first, order);
    offered, failed := c.versionedPlugins, err.Some? || panicked;
    order := Iterate(ClientTable(c.version, c.plugins, c.versionedPlugins));
    addr, err, panicked := c.Start(w, next, order);
    again := c.versionedPlugins;
    assert Signed(version) !in offered && again == offered ==> Signed(version) !in again;
  }

  // ---------------------------------------------------------------- reattaching

  datatype ReattachConfig = ReattachConfig(protocol: string, version: Int, addr: Addr)

  function ReattachTable(plugins: Option<PluginSet>, versioned: Table, v: Int): Table
  {
    if v !in versioned && plugins.Some? then versioned[v := plugins.value] else versioned
  }

  function ReattachPlugins(plugins: Option<PluginSet>, versioned: Table, v: Int): Option<PluginSet>
  {
    if v in versioned then Some(versioned[v]) else plugins
  }

  /** The set adopted on reattach is the one negotiation chose, for every configuration. */
  lemma {:induction false} ReattachFindsTheSet(version: Uint, plugins: Option<PluginSet>, versioned: Table, v: Int)
    requires v in ClientTable(version, plugins, versioned)
    ensures ReattachPlugins(plugins, versioned, v) == Some(ClientTable(version, plugins, versioned)[v])
  {
  }

  /** What a client has adopted from its plugin. */
  datatype Adopted = Adopted(address: Option<Addr>, version: Int, plugins: Option<PluginSet>, protocol: string)

  /** Start a client, ask it how to reattach, and reattach a second client with the same original
      configuration: the same address, version and plugin set, and the same protocol exactly when
      the first one's was not empty. */
  method StartAndReattach(
      version: Uint, allowed: seq<string>, mux: bool, tls: bool, plugins: Option<PluginSet>, versioned: Table,
      w: World, first: First, order: seq<Int>)
    returns (a: Adopted, b: Adopted)
    requires IterationOf(order, ClientTable(version, plugins, versioned))
    ensures if a.address.Some? then
              b.address == a.address && b.version == a.version && b.plugins == a.plugins &&
              (b.protocol == a.protocol <==> a.protocol != "")
            else b.address.None?
  {
    var c := new Client(version, allowed, mux, tls, plugins, versioned);
    var d := new Client(version, allowed, mux, tls, plugins, versioned);
    var addr, err, panicked := c.Start(w, first, order);
    var info := c.ReattachInfo();
    if info.Some? {
      ReattachFindsTheSet(version, plugins, versioned, c.negotiatedVersion);
      d.Reattach(info.value);
    }
    a := Adopted(c.address, c.negotiatedVersion, c.plugins, c.protocol);
    b := Adopted(d.address, d.negotiatedVersion, d.plugins, d.protocol);
  }
}
