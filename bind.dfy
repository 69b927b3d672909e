/**
 * The `--bind` handling of `main` (main.go:75-85): the flag's text is split
 * on every `:`, the first piece becomes the engine's bind address as it is,
 * and a second piece, when there is one, must read as a Go `int` and becomes
 * the bind port; otherwise the port keeps the engine configuration's default.
 * Pieces after the second are ignored.
 */
module Bind {
  import opened Wrappers
  import opened Numeric
  import opened Strings

  /** The `--bind` flag's default value. */
  const DefaultBind: string := "127.0.0.1:7000"

  /** The fields of the engine configuration that `main` sets. */
  datatype Config = Config(name: string, bindAddr: string, bindPort: int)

  datatype Endpoint = Endpoint(host: string, port: int)

  /** The fatal "invalid bind address" condition, with the port text that failed. */
  datatype BindError = InvalidBindAddress(port: string)

  /**
   * Parses the `--bind` text. `defaultPort` is the port the configuration
   * already holds, kept when the text has no `:`.
   */
  function ParseBind(s: string, defaultPort: int): (r: Result<Endpoint, BindError>)
    ensures r.Ok? ==> r.value.host <= s && ':' !in r.value.host
    ensures r.Ok? ==> |r.value.host| == |s| || s[|r.value.host|] == ':'
    ensures r.Ok? ==> InIntRange(r.value.port) || r.value.port == defaultPort
    ensures r.Ok? && |r.value.host| == |s| ==> r.value.port == defaultPort
    ensures r.Err? ==> ':' in s && Atoi(r.error.port) == None
  {
    var parts := Split(s, ':');
    SplitFirstPiece(s, ':');
    if |parts| > 1 then
      match Atoi(parts[1])
      case None => Err(InvalidBindAddress(parts[1]))
      case Some(port) => Ok(Endpoint(parts[0], port))
    else
      Ok(Endpoint(parts[0], defaultPort))
  }

  /** The engine configuration `main` builds from `--bind` and `--name`. */
  function ConfigFromFlags(base: Config, bind: string, name: string): (r: Result<Config, BindError>)
    ensures r.Ok? <==> ParseBind(bind, base.bindPort).Ok?
    ensures r.Ok? ==> r.value.name == name
    ensures r.Ok? ==> Endpoint(r.value.bindAddr, r.value.bindPort) == ParseBind(bind, base.bindPort).value
  {
    match ParseBind(bind, base.bindPort)
    case Err(e) => Err(e)
    case Ok(ep) => Ok(base.(name := name, bindAddr := ep.host, bindPort := ep.port))
  }

  /** Without a `:` the whole text is the host and the default port stays. */
  lemma ParseBindNoPort(s: string, defaultPort: int)
    requires ':' !in s
    ensures ParseBind(s, defaultPort) == Ok(Endpoint(s, defaultPort))
  {
  }

  /**
   * With a `:`, the host is the text before it and the port is what `Atoi`
   * reads from the text up to the next `:` (or the end); the rest is ignored.
   */
  lemma ParseBindWithPort(host: string, port: string, tail: string, defaultPort: int)
    requires ':' !in host && ':' !in port
    requires tail == [] || tail[0] == ':'
    ensures ParseBind(host + ":" + port + tail, defaultPort) ==
      match Atoi(port)
      case None => Err(InvalidBindAddress(port))
      case Some(n) => Ok(Endpoint(host, n))
  {
    SplitAtFirstSep(host, ':', port + tail);
    assert host + ":" + port + tail == host + [':'] + (port + tail);
    if tail == [] {
      assert port + tail == port;
      SplitNoSep(port, ':');
    } else {
      assert port + tail == port + [':'] + tail[1..];
      SplitAtFirstSep(port, ':', tail[1..]);
    }
  }

  /**
   * Round trip: for a host without `:` and any `int` n, the text
   * `host:n` parses back to exactly that host and n, negative n included,
   * and whatever follows a further `:` does not matter.
   */
  lemma ParseBindRoundTrip(host: string, n: int, tail: string, defaultPort: int)
    requires ':' !in host && InIntRange(n)
    requires tail == [] || tail[0] == ':'
    ensures ParseBind(host + ":" + Itoa(n) + tail, defaultPort) == Ok(Endpoint(host, n))
  {
    ItoaChars(n, ':');
    AtoiItoa(n);
    ParseBindWithPort(host, Itoa(n), tail, defaultPort);
  }

  /** A port piece that `Atoi` rejects makes the whole `--bind` text invalid. */
  lemma ParseBindRejects(host: string, port: string, tail: string, defaultPort: int)
    requires ':' !in host && ':' !in port
    requires tail == [] || tail[0] == ':'
    requires Atoi(port).None?
    ensures ParseBind(host + ":" + port + tail, defaultPort) == Err(InvalidBindAddress(port))
  {
    ParseBindWithPort(host, port, tail, defaultPort);
  }

  /** The flag's default text binds 127.0.0.1 on port 7000. */
  lemma DefaultBindParses(defaultPort: int)
    ensures ParseBind(DefaultBind, defaultPort) == Ok(Endpoint("127.0.0.1", 7000))
  {
    assert Itoa(7000) == "7000";
    ParseBindRoundTrip("127.0.0.1", 7000, "", defaultPort);
    assert "127.0.0.1" + ":" + Itoa(7000) + "" == DefaultBind;
  }

  /**
   * What the parse does not check: `":7000"` gives the empty host, `"h:-1"`
   * the negative port -1, and in `"h:7000:x"` the third piece is ignored.
   */
  lemma UncheckedInputsAccepted(defaultPort: int)
    ensures ParseBind(":7000", defaultPort) == Ok(Endpoint("", 7000))
    ensures ParseBind("h:-1", defaultPort) == Ok(Endpoint("h", -1))
    ensures ParseBind("h:7000:x", defaultPort) == Ok(Endpoint("h", 7000))
  {
    assert Itoa(7000) == "7000" && Itoa(-1) == "-1";
    ParseBindRoundTrip("", 7000, "", defaultPort);
    assert "" + ":" + Itoa(7000) + "" == ":7000";
    ParseBindRoundTrip("h", -1, "", defaultPort);
    assert "h" + ":" + Itoa(-1) + "" == "h:-1";
    ParseBindRoundTrip("h", 7000, ":x", defaultPort);
    assert "h" + ":" + Itoa(7000) + ":x" == "h:7000:x";
  }

  /** `"host:notanumber"` and `"host:"` are fatal, naming the port piece that failed. */
  lemma BadPortRejected(defaultPort: int)
    ensures ParseBind("host:notanumber", defaultPort) == Err(InvalidBindAddress("notanumber"))
    ensures ParseBind("host:", defaultPort) == Err(InvalidBindAddress(""))
  {
    assert Atoi("notanumber").None? && Atoi("").None?;
    ParseBindRejects("host", "notanumber", "", defaultPort);
    assert "host" + ":" + "notanumber" + "" == "host:notanumber";
    ParseBindRejects("host", "", "", defaultPort);
    assert "host" + ":" + "" + "" == "host:";
  }
}
