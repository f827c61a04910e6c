/**
 * config/config.go: loading the service configuration, resolving the server's
 * own IP address when none is configured, and filling in the HTTP timeouts.
 *
 * Reading the file, decoding its YAML and listing the host's intranet
 * addresses are injected outcomes. The package-level variables `G` and
 * `ServerNodeIP` are the fields of a `Globals` object.
 */
module Config {
  import opened Common

  /** The timeouts, in seconds, that replace a missing or non-positive setting. */
  const DefaultIdleTimeout := 60
  const DefaultReadTimeout := 15
  const DefaultWriteTimeout := 60

  /** A timeout after defaulting: kept when positive, the default otherwise. */
  function Defaulted(t: int, default: int): (r: int)
    requires default > 0
    ensures r > 0
    ensures t > 0 ==> r == t
    ensures t <= 0 ==> r == default
  {
    if t <= 0 then default else t
  }

  /** Defaulting twice changes nothing more. */
  lemma DefaultedIdempotent(t: int, default: int)
    requires default > 0
    ensures Defaulted(Defaulted(t, default), default) == Defaulted(t, default)
  {
  }

  class HTTPServerConfig {
    var address: string
    var idleTimeout: int
    var readTimeout: int
    var writeTimeout: int
    var maxHeaderBytes: int

    constructor (address: string, idleTimeout: int, readTimeout: int, writeTimeout: int, maxHeaderBytes: int)
      ensures this.address == address && this.idleTimeout == idleTimeout && this.readTimeout == readTimeout
      ensures this.writeTimeout == writeTimeout && this.maxHeaderBytes == maxHeaderBytes
    {
      this.address := address;
      this.idleTimeout := idleTimeout;
      this.readTimeout := readTimeout;
      this.writeTimeout := writeTimeout;
      this.maxHeaderBytes := maxHeaderBytes;
    }

    /** All three timeouts are set. */
    predicate Filled()
      reads this
    {
      idleTimeout > 0 && readTimeout > 0 && writeTimeout > 0
    }

    /** fillDefault: each non-positive timeout takes its default; nothing else changes. */
    method FillDefault()
      modifies this`idleTimeout, this`readTimeout, this`writeTimeout
      ensures Filled()
      ensures idleTimeout == Defaulted(old(idleTimeout), DefaultIdleTimeout)
      ensures readTimeout == Defaulted(old(readTimeout), DefaultReadTimeout)
      ensures writeTimeout == Defaulted(old(writeTimeout), DefaultWriteTimeout)
    {
      if idleTimeout <= 0 {
        idleTimeout := DefaultIdleTimeout;
      }
      if readTimeout <= 0 {
        readTimeout := DefaultReadTimeout;
      }
      if writeTimeout <= 0 {
        writeTimeout := DefaultWriteTimeout;
      }
    }
  }

  /** The outcome of `net.IntranetIP()`: the addresses found, or an error. */
  datatype IPLookup = IPLookup(ips: seq<string>, err: Option<string>)

  const NoIntranetIP := "not resolve to the intranet IP."

  /** The error ParseLocalServeIntranetIP returns for a lookup, if any. */
  function ResolveError(lookup: IPLookup): (r: Option<string>)
    ensures r.None? <==> lookup.err.None? && lookup.ips != []
    ensures lookup.err.Some? ==> r == Some("failed to get intranet IPs: " + lookup.err.value)
    ensures lookup.err.None? && lookup.ips == [] ==> r == Some(NoIntranetIP)
  {
    if lookup.err.Some? then Some("failed to get intranet IPs: " + lookup.err.value)
    else if |lookup.ips| == 0 then Some(NoIntranetIP)
    else None
  }

  class AppConfig {
    var serverIP: string
    var region: string
    var http: HTTPServerConfig?
    var enableExporterMetrics: bool
    var metricsPath: string
    var enablePProf: bool

    constructor (serverIP: string, region: string, http: HTTPServerConfig?,
                 enableExporterMetrics: bool, metricsPath: string, enablePProf: bool)
      ensures this.serverIP == serverIP && this.region == region && this.http == http
      ensures this.enableExporterMetrics == enableExporterMetrics
      ensures this.metricsPath == metricsPath && this.enablePProf == enablePProf
    {
      this.serverIP := serverIP;
      this.region := region;
      this.http := http;
      this.enableExporterMetrics := enableExporterMetrics;
      this.metricsPath := metricsPath;
      this.enablePProf := enablePProf;
    }

    /** ParseLocalServeIntranetIP: the first address found, or an error and no change. */
    method ParseLocalServeIntranetIP(lookup: IPLookup) returns (err: Option<string>)
      modifies this`serverIP
      ensures err == ResolveError(lookup)
      ensures err.Some? ==> serverIP == old(serverIP)
      ensures err.None? ==> serverIP == lookup.ips[0]
    {
      if lookup.err.Some? {
        return Some("failed to get intranet IPs: " + lookup.err.value);
      }
      if |lookup.ips| == 0 {
        return Some(NoIntranetIP);
      }
      serverIP := lookup.ips[0];
      return None;
    }

    /**
     * Check: a configured address is kept and no lookup happens; otherwise it
     * is resolved, and a failed resolution returns before the HTTP defaults
     * are filled. A nil HTTP section is dereferenced only when Check gets that far.
     */
    method Check(lookup: IPLookup) returns (err: Option<string>)
      requires http != null || (serverIP == "" && ResolveError(lookup).Some?)
      modifies this`serverIP, http
      ensures old(serverIP) != "" ==> err.None? && serverIP == old(serverIP)
      ensures old(serverIP) == "" ==> err == ResolveError(lookup)
      ensures old(serverIP) == "" && err.None? ==> serverIP == lookup.ips[0]
      ensures err.Some? ==> serverIP == old(serverIP) && (http != null ==> unchanged(http))
      ensures err.None? ==> http != null && http.Filled()
      ensures err.None? ==> http.address == old(http.address) && http.maxHeaderBytes == old(http.maxHeaderBytes)
      ensures err.None? ==>
        && http.idleTimeout == Defaulted(old(http.idleTimeout), DefaultIdleTimeout)
        && http.readTimeout == Defaulted(old(http.readTimeout), DefaultReadTimeout)
        && http.writeTimeout == Defaulted(old(http.writeTimeout), DefaultWriteTimeout)
    {
      if |serverIP| <= 0 {
        err := ParseLocalServeIntranetIP(lookup);
        if err.Some? {
          return;
        }
      }
      http.FillDefault();
      err := None;
    }
  }

  /** TencentCloudSpeechConfig. */
  datatype SpeechConfig = SpeechConfig(appId: string, secretId: string, secretKey: string, token: string, sliceSize: int)

  /** The values YAML decoding yields for the HTTP and App sections. */
  datatype HTTPSection = HTTPSection(address: string, idleTimeout: int, readTimeout: int, writeTimeout: int, maxHeaderBytes: int)
  datatype AppSection = AppSection(
    serverIP: string, region: string, http: Option<HTTPSection>,
    enableExporterMetrics: bool, metricsPath: string, enablePProf: bool)

  /** The outcome of `yaml.UnmarshalStrict` on the file's contents. */
  datatype Decoded =
    | DecodeFailed(err: string)
    | Decoded(filename: Option<string>, app: Option<AppSection>, speech: SpeechConfig)

  /** The outcome of `os.ReadFile`. */
  datatype ReadResult = ReadFailed(err: string) | Read(content: Bytes)

  /** The package-level variables `G` and `ServerNodeIP`. */
  class Globals {
    var g: LingoLiftConfig?
    var serverNodeIP: string

    constructor ()
      ensures g == null && serverNodeIP == ""
    {
      g := null;
      serverNodeIP := "";
    }
  }

  /** Whether the section decoded from a file is one Check can run on without a nil dereference. */
  predicate Checkable(d: Decoded, lookup: IPLookup)
  {
    d.Decoded? ==>
      && d.app.Some?
      && (d.app.value.http.Some? || (d.app.value.serverIP == "" && ResolveError(lookup).Some?))
  }

  class LingoLiftConfig {
    var filename: string
    var app: AppConfig?
    var speech: SpeechConfig

    /** NewConfig. */
    constructor ()
      ensures filename == "" && app == null && speech == SpeechConfig("", "", "", "", 0)
    {
      filename := "";
      app := null;
      speech := SpeechConfig("", "", "", "", 0);
    }

    /** fillDefault: mirrors the server address into `ServerNodeIP`. */
    method FillDefault(globals: Globals)
      requires app != null
      modifies globals`serverNodeIP
      ensures globals.serverNodeIP == app.serverIP
    {
      globals.serverNodeIP := app.serverIP;
    }

    /**
     * LoadFile: the file name is recorded before any I/O; then read, decode,
     * check and default, and only after a successful check is the
     * configuration published as `G`, with `ServerNodeIP` mirrored.
     * `decode` is YAML decoding into the receiver; a nil App section reaching
     * check is a nil dereference in the source, so the file must have one.
     */
    method LoadFile(name: string, read: ReadResult, decode: Bytes -> Decoded, lookup: IPLookup, globals: Globals)
      returns (err: Option<string>)
      requires read.Read? ==> Checkable(decode(read.content), lookup)
      modifies this, globals
      ensures read.ReadFailed? ==> err == Some(read.err) && filename == name
      ensures read.ReadFailed? ==> app == old(app) && speech == old(speech)
      ensures read.Read? && decode(read.content).DecodeFailed? ==>
        err == Some(decode(read.content).err) && filename == name
      ensures err.Some? ==> unchanged(globals)
      ensures read.Read? && decode(read.content).Decoded? ==>
        var d := decode(read.content);
        && speech == d.speech && app != null && fresh(app)
        && filename == (if d.filename.Some? then d.filename.value else name)
        && (d.app.value.serverIP != "" ==> err.None? && app.serverIP == d.app.value.serverIP)
        && (d.app.value.serverIP == "" ==> err == ResolveError(lookup))
      ensures err.None? ==>
        && read.Read? && decode(read.content).Decoded?
        && globals.g == this && app != null && globals.serverNodeIP == app.serverIP
        && app.http != null && app.http.Filled()
      ensures read.Read? && decode(read.content).Decoded? && err.None? ==>
        var s := decode(read.content).app.value;
        && app != null && app.http != null && s.http.Some?
        && app.serverIP == (if s.serverIP != "" then s.serverIP else lookup.ips[0])
        && app.region == s.region && app.enableExporterMetrics == s.enableExporterMetrics
        && app.metricsPath == s.metricsPath && app.enablePProf == s.enablePProf
        && app.http.address == s.http.value.address && app.http.maxHeaderBytes == s.http.value.maxHeaderBytes
        && app.http.idleTimeout == Defaulted(s.http.value.idleTimeout, DefaultIdleTimeout)
        && app.http.readTimeout == Defaulted(s.http.value.readTimeout, DefaultReadTimeout)
        && app.http.writeTimeout == Defaulted(s.http.value.writeTimeout, DefaultWriteTimeout)
    {
      filename := name;

      if read.ReadFailed? {
        return Some(read.err);
      }
      var decoded := decode(read.content);
      if decoded.DecodeFailed? {
        return Some(decoded.err);
      }

      // the decoder fills the receiver's fields
      if decoded.filename.Some? {
        filename := decoded.filename.value;
      }
      speech := decoded.speech;
      var section := decoded.app.value;
      var http: HTTPServerConfig? := null;
      if section.http.Some? {
        var h := section.http.value;
        http := new HTTPServerConfig(h.address, h.idleTimeout, h.readTimeout, h.writeTimeout, h.maxHeaderBytes);
      }
      app := new AppConfig(section.serverIP, section.region, http,
                           section.enableExporterMetrics, section.metricsPath, section.enablePProf);

      // check
      err := app.Check(lookup);
      if err.Some? {
        return;
      }

      FillDefault(globals);
      globals.g := this;
    }
  }
}
