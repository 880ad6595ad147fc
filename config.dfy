/**
  config.go: turning a listen address into a network and an address, and
  assembling the configuration record from a fixed list of defaults followed
  by the caller's options, each option being a write of one or two fields.

  `url.Parse` is a foreign call whose result is an input (a UrlParser).
  Durations are integers (nanoseconds) that are stored and passed on, never
  computed with.
 */
module Config {
  import opened Wrappers
  import opened Errors
  import opened Strings
  import opened Contracts
  import opened Recovery

  type Duration = int
  const Second: Duration := 1_000_000_000

  /**
    The parts of a parsed `*url.URL` the address parsers read. `opaquePart` (Go's `Opaque`) is
    what follows the scheme's colon when it does not start with a slash
    ("app.sock" in "unix:app.sock"); `url.Parse` then leaves host and path empty.
   */
  datatype Url = Url(scheme: string, host: string, path: string, opaquePart: string)

  /** `url.Parse`: a URL, or None when it returns an error. */
  type UrlParser = string -> Option<Url>

  /** A `(network, address)` pair as `parseListenAddress` returns it. */
  datatype Endpoint = Endpoint(network: string, address: string)

  /** `coalesce`: the first non-empty value, or "" when there is none. */
  function Coalesce(values: seq<string>): string
  {
    if |values| == 0 then ""
    else if |values[0]| > 0 then values[0]
    else Coalesce(values[1..])
  }

  /** `coalesce` is empty exactly when every value is, and otherwise the first non-empty value. */
  lemma {:induction false} CoalesceFirstNonEmpty(values: seq<string>)
    ensures Coalesce(values) == "" <==> forall i :: 0 <= i < |values| ==> values[i] == ""
    ensures Coalesce(values) != "" ==>
      exists i :: 0 <= i < |values| && values[i] == Coalesce(values) && forall j :: 0 <= j < i ==> values[j] == ""
    decreases |values|
  {
    if |values| > 0 && |values[0]| == 0 {
      var rest := values[1..];
      CoalesceFirstNonEmpty(rest);
      assert forall i :: 1 <= i < |values| ==> values[i] == rest[i - 1];
      if Coalesce(rest) != "" {
        var i :| 0 <= i < |rest| && rest[i] == Coalesce(rest) && forall j :: 0 <= j < i ==> rest[j] == "";
        assert values[i + 1] == Coalesce(values);
        assert forall j :: 0 <= j < i + 1 ==> values[j] == "";
      }
    }
  }

  /** Coalescing two values: the first unless it is empty. */
  lemma CoalescePair(a: string, b: string)
    ensures Coalesce([a, b]) == if a != "" then a else b
  {
    assert [b][1..] == [];
    assert Coalesce([b]) == if b != "" then b else "";
    assert [a, b][1..] == [b];
  }

  /** Coalescing three values: the first that is not empty, else the last. */
  lemma CoalesceTriple(a: string, b: string, c: string)
    ensures Coalesce([a, b, c]) == if a != "" then a else if b != "" then b else c
  {
    CoalescePair(b, c);
    assert [a, b, c][1..] == [b, c];
  }

  /** `parseURL`: nothing for a blank value, otherwise what `url.Parse` makes of the trimmed value. */
  function ParseUrl(value: string, parse: UrlParser): Option<Url>
  {
    var trimmed := TrimSpace(value);
    if |trimmed| == 0 then None else parse(trimmed)
  }

  /** True when `strings.ToLower(scheme) == "unix"`. */
  predicate IsUnixScheme(scheme: string)
  {
    ToLower(scheme) == "unix"
  }

  const UnixPrefix: string := "unix://"

  /**
    `parseListenAddress` exactly as config.go writes it. None stands for the
    run-time panic of `value[len("unix://"):]` when the value is shorter than
    that prefix. The cut is made in the untrimmed value whether or not it
    starts with the prefix.
   */
  function ParseListenAddressAsWritten(value: string, parse: UrlParser): Option<Endpoint>
  {
    match ParseUrl(value, parse)
    case None => Some(Endpoint("tcp", value))
    case Some(u) =>
      if IsUnixScheme(u.scheme) then
        if |value| < |UnixPrefix| then None else Some(Endpoint("unix", value[|UnixPrefix|..]))
      else Some(Endpoint(Coalesce([u.scheme, "tcp"]), Coalesce([u.host, u.path])))
  }

  /** True when the text starts with "unix://" in any letter case. */
  predicate HasUnixPrefix(t: string)
  {
    |t| >= |UnixPrefix| && ToLower(t[..|UnixPrefix|]) == UnixPrefix
  }

  /**
    The socket path of a `unix` address: the text after a literal "unix://"
    prefix of the trimmed value (so a relative path survives), and otherwise
    the URL's host, path or opaque part, the first that is not empty.
   */
  function UnixSocketPath(trimmed: string, u: Url): (path: string)
    ensures HasUnixPrefix(trimmed) ==> path == trimmed[|UnixPrefix|..]
    ensures !HasUnixPrefix(trimmed) ==> path == if u.host != "" then u.host else if u.path != "" then u.path else u.opaquePart
  {
    CoalesceTriple(u.host, u.path, u.opaquePart);
    if HasUnixPrefix(trimmed) then trimmed[|UnixPrefix|..] else Coalesce([u.host, u.path, u.opaquePart])
  }

  /**
    `parseListenAddress` with the `unix` branch corrected: it never panics and
    never cuts into the path. This is the parser the ListenAddress option uses.
   */
  function ParseListenAddress(value: string, parse: UrlParser): Endpoint
  {
    match ParseUrl(value, parse)
    case None => Endpoint("tcp", value)
    case Some(u) =>
      if IsUnixScheme(u.scheme) then Endpoint("unix", UnixSocketPath(TrimSpace(value), u))
      else Endpoint(Coalesce([u.scheme, "tcp"]), Coalesce([u.host, u.path]))
  }

  /** An empty or all-white-space address is TCP with the value returned as given, untrimmed. */
  lemma BlankAddressIsTcp(value: string, parse: UrlParser)
    requires forall k :: 0 <= k < |value| ==> IsSpace(value[k])
    ensures ParseListenAddress(value, parse) == Endpoint("tcp", value)
    ensures ParseListenAddressAsWritten(value, parse) == Some(Endpoint("tcp", value))
  {
    TrimSpaceEmpty(value);
  }

  /** An address `url.Parse` rejects is TCP with the value returned as given. */
  lemma UnparsedAddressIsTcp(value: string, parse: UrlParser)
    requires parse(TrimSpace(value)) == None
    ensures ParseListenAddress(value, parse) == Endpoint("tcp", value)
    ensures ParseListenAddressAsWritten(value, parse) == Some(Endpoint("tcp", value))
  {
  }

  /**
    As written, a `unix` scheme in any letter case yields network "unix" and
    the untrimmed value minus its first seven bytes (characters, for ASCII text).
   */
  lemma AsWrittenUnixDropsPrefixLength(value: string, parse: UrlParser)
    requires ParseUrl(value, parse).Some? && IsUnixScheme(ParseUrl(value, parse).value.scheme)
    requires |value| >= |UnixPrefix| && IsAscii(value)
    ensures ParseListenAddressAsWritten(value, parse) == Some(Endpoint("unix", value[|UnixPrefix|..]))
  {
  }

  /**
    For a value that starts with "unix://" in any letter case and has no white
    space around it, both parsers keep everything after the prefix: no slash is
    added, so a relative path survives.
   */
  lemma UnixPrefixedAddress(value: string, parse: UrlParser)
    requires HasUnixPrefix(value) && !IsSpace(value[0]) && !IsSpace(value[|value| - 1])
    requires parse(value).Some? && IsUnixScheme(parse(value).value.scheme)
    ensures ParseListenAddress(value, parse) == Endpoint("unix", value[|UnixPrefix|..])
    ensures ParseListenAddressAsWritten(value, parse) == Some(Endpoint("unix", value[|UnixPrefix|..]))
  {
    TrimSpaceKeeps(value);
  }

  /** Any other parsed address: the scheme, or "tcp" when it is empty; the host, or the path when the host is empty. */
  lemma OtherSchemeAddress(value: string, parse: UrlParser)
    requires ParseUrl(value, parse).Some? && !IsUnixScheme(ParseUrl(value, parse).value.scheme)
    ensures var u := ParseUrl(value, parse).value;
      && ParseListenAddress(value, parse) == Endpoint(if u.scheme != "" then u.scheme else "tcp", if u.host != "" then u.host else u.path)
      && ParseListenAddressAsWritten(value, parse) == Some(ParseListenAddress(value, parse))
  {
    var u := ParseUrl(value, parse).value;
    CoalescePair(u.scheme, "tcp");
    CoalescePair(u.host, u.path);
  }

  const BareName: string := "my-listen-address"
  const UnixAbsolute: string := "unix:///tmp/a.sock"
  const ShortUnix: string := "unix:"
  const SingleSlashUnix: string := "unix:/tmp/a.sock"
  const PaddedUnix: string := " unix:///tmp/a.sock"
  const OpaqueUnix: string := "unix:app.sock"
  const HostPort: string := "localhost:8080"

  /** "my-listen-address", which `url.Parse` reads as a bare path, is TCP on that address. */
  lemma BareNameIsTcp(parse: UrlParser)
    requires parse(BareName) == Some(Url("", "", BareName, ""))
    ensures ParseListenAddress(BareName, parse) == Endpoint("tcp", BareName)
  {
    BareNameTrimmed();
    OtherSchemeAddress(BareName, parse);
  }

  lemma BareNameTrimmed()
    ensures TrimSpace(BareName) == BareName && |BareName| > 0
  {
    TrimSpaceKeeps(BareName);
  }

  /** "unix:///tmp/a.sock" is the Unix socket "/tmp/a.sock". */
  lemma UnixAbsolutePath(parse: UrlParser)
    requires parse(UnixAbsolute) == Some(Url("unix", "", "/tmp/a.sock", ""))
    ensures ParseListenAddress(UnixAbsolute, parse) == Endpoint("unix", "/tmp/a.sock")
  {
    UnixAbsoluteParts();
    UnixPrefixedAddress(UnixAbsolute, parse);
  }

  lemma UnixAbsoluteParts()
    ensures HasUnixPrefix(UnixAbsolute) && !IsSpace(UnixAbsolute[0]) && !IsSpace(UnixAbsolute[|UnixAbsolute| - 1])
    ensures IsUnixScheme("unix")
    ensures UnixAbsolute[|UnixPrefix|..] == "/tmp/a.sock"
  {
    ToLowerKeeps(UnixAbsolute[..7]);
    ToLowerKeeps("unix");
  }

  /** As written, "unix:" (which `url.Parse` accepts with scheme "unix") panics; the corrected parser gives the empty socket path. */
  lemma AsWrittenPanicsOnShortUnix(parse: UrlParser)
    requires parse(ShortUnix) == Some(Url("unix", "", "", ""))
    ensures ParseListenAddressAsWritten(ShortUnix, parse) == None
    ensures ParseListenAddress(ShortUnix, parse) == Endpoint("unix", "")
  {
    ShortUnixTrimmed();
    ShortUnixAscii();
    UnixSchemeIsUnix();
    ShortUnixAsWritten(ShortUnix, "unix", parse);
    ShortUnixCorrected(ShortUnix, "unix", "", parse);
  }

  lemma ShortUnixAscii()
    ensures IsAscii(ShortUnix)
  {
  }

  lemma ShortUnixTrimmed()
    ensures TrimSpace(ShortUnix) == ShortUnix && 0 < |ShortUnix| < |UnixPrefix|
  {
    TrimSpaceKeeps(ShortUnix);
  }

  lemma UnixSchemeIsUnix()
    ensures IsUnixScheme("unix")
  {
    ToLowerKeeps("unix");
  }

  /** As written, a `unix` address shorter than "unix://" is cut past its end. */
  lemma ShortUnixAsWritten(value: string, scheme: string, parse: UrlParser)
    requires TrimSpace(value) == value && 0 < |value| < |UnixPrefix| && IsAscii(value)
    requires parse(value).Some? && parse(value).value.scheme == scheme && IsUnixScheme(scheme)
    ensures ParseListenAddressAsWritten(value, parse) == None
  {
  }

  /**
    The corrected parser reads a short `unix` address with neither host nor
    path from its opaque part: "unix:a" is the socket "a", and "unix:" the
    empty socket path.
   */
  lemma ShortUnixCorrected(value: string, scheme: string, opaquePart: string, parse: UrlParser)
    requires TrimSpace(value) == value && 0 < |value| < |UnixPrefix|
    requires parse(value) == Some(Url(scheme, "", "", opaquePart)) && IsUnixScheme(scheme)
    ensures ParseListenAddress(value, parse) == Endpoint("unix", opaquePart)
  {
  }

  /** As written, "unix:/tmp/a.sock" loses "/t" of its path; the corrected parser keeps the whole path. */
  lemma AsWrittenCutsSingleSlashPath(parse: UrlParser)
    requires parse(SingleSlashUnix) == Some(Url("unix", "", "/tmp/a.sock", ""))
    ensures ParseListenAddressAsWritten(SingleSlashUnix, parse) == Some(Endpoint("unix", "mp/a.sock"))
    ensures ParseListenAddress(SingleSlashUnix, parse) == Endpoint("unix", "/tmp/a.sock")
  {
    SingleSlashTrimmed();
    SingleSlashAscii();
    SingleSlashCut();
    UnixSchemeIsUnix();
    AsWrittenUnixDropsPrefixLength(SingleSlashUnix, parse);
    PathOnlyUnixCorrected(SingleSlashUnix, "unix", "/tmp/a.sock", "", parse);
  }

  lemma SingleSlashAscii()
    ensures IsAscii(SingleSlashUnix)
  {
  }

  lemma SingleSlashTrimmed()
    ensures TrimSpace(SingleSlashUnix) == SingleSlashUnix
  {
    TrimSpaceKeeps(SingleSlashUnix);
  }

  lemma SingleSlashCut()
    ensures |SingleSlashUnix| >= |UnixPrefix| && !HasUnixPrefix(SingleSlashUnix)
    ensures SingleSlashUnix[|UnixPrefix|..] == "mp/a.sock"
  {
    assert ToLower(SingleSlashUnix[..7])[6] == 't';
  }

  /**
    The corrected parser gives a trimmed `unix` address without the "unix://"
    prefix and without a host its path, or its opaque part when the path is
    empty, so "unix:/tmp/a.sock" and the relative "unix:app.sock" keep their
    whole socket path.
   */
  lemma PathOnlyUnixCorrected(value: string, scheme: string, path: string, opaquePart: string, parse: UrlParser)
    requires TrimSpace(value) == value && |value| > 0 && !HasUnixPrefix(value)
    requires parse(value) == Some(Url(scheme, "", path, opaquePart)) && IsUnixScheme(scheme)
    ensures ParseListenAddress(value, parse) == Endpoint("unix", if path != "" then path else opaquePart)
  {
    var u := Url(scheme, "", path, opaquePart);
    assert ParseUrl(value, parse) == Some(u);
    CoalesceTriple("", path, opaquePart);
  }

  /** As written, the relative "unix:app.sock" loses "ap" of its socket path; the corrected parser keeps it whole. */
  lemma AsWrittenCutsOpaquePath(parse: UrlParser)
    requires parse(OpaqueUnix) == Some(Url("unix", "", "", "app.sock"))
    ensures ParseListenAddressAsWritten(OpaqueUnix, parse) == Some(Endpoint("unix", "p.sock"))
    ensures ParseListenAddress(OpaqueUnix, parse) == Endpoint("unix", "app.sock")
  {
    OpaqueTrimmed();
    OpaqueAscii();
    OpaqueCut();
    UnixSchemeIsUnix();
    AsWrittenUnixDropsPrefixLength(OpaqueUnix, parse);
    PathOnlyUnixCorrected(OpaqueUnix, "unix", "", "app.sock", parse);
  }

  lemma OpaqueAscii()
    ensures IsAscii(OpaqueUnix)
  {
  }

  lemma OpaqueTrimmed()
    ensures TrimSpace(OpaqueUnix) == OpaqueUnix
  {
    TrimSpaceKeeps(OpaqueUnix);
  }

  lemma OpaqueCut()
    ensures |OpaqueUnix| >= |UnixPrefix| && !HasUnixPrefix(OpaqueUnix)
    ensures OpaqueUnix[|UnixPrefix|..] == "p.sock"
  {
    assert ToLower(OpaqueUnix[..7])[5] == 'a';
  }

  /**
    "localhost:8080" is read by `url.Parse` as the scheme "localhost" with the
    opaque part "8080", so both parsers give network "localhost" and an empty
    address, on which the accept task never binds.
   */
  lemma HostPortReadAsScheme(parse: UrlParser)
    requires parse(HostPort) == Some(Url("localhost", "", "", "8080"))
    ensures ParseListenAddressAsWritten(HostPort, parse) == Some(Endpoint("localhost", ""))
    ensures ParseListenAddress(HostPort, parse) == Endpoint("localhost", "")
  {
    HostPortTrimmed();
    LocalhostIsNotUnix();
    OtherSchemeAddress(HostPort, parse);
  }

  lemma HostPortTrimmed()
    ensures TrimSpace(HostPort) == HostPort && |HostPort| > 0
  {
    TrimSpaceKeeps(HostPort);
  }

  lemma LocalhostIsNotUnix()
    ensures !IsUnixScheme("localhost")
  {
    assert |ToLower("localhost")| == 9;
  }

  /**
    As written, white space around a `unix` address is kept in the cut, so
    " unix:///tmp/a.sock" loses the first slash of its path; the corrected
    parser cuts the trimmed value.
   */
  lemma AsWrittenSlicesUntrimmed(parse: UrlParser)
    requires parse(UnixAbsolute) == Some(Url("unix", "", "/tmp/a.sock", ""))
    ensures ParseListenAddressAsWritten(PaddedUnix, parse) == Some(Endpoint("unix", "//tmp/a.sock"))
    ensures ParseListenAddress(PaddedUnix, parse) == Endpoint("unix", "/tmp/a.sock")
  {
    PaddedTrimmed();
    PaddedCut();
    UnixSchemeIsUnix();
    UnixAbsoluteParts();
    AsWrittenUnixDropsPrefixLength(PaddedUnix, parse);
    PaddedUnixCorrected(PaddedUnix, parse);
  }

  lemma PaddedTrimmed()
    ensures TrimSpace(PaddedUnix) == UnixAbsolute
  {
    TrimSpaceKeeps(UnixAbsolute);
    PaddedSplit();
    TrimSpaceLeading(' ', UnixAbsolute);
  }

  lemma PaddedSplit()
    ensures PaddedUnix == [' '] + UnixAbsolute
  {
  }

  lemma PaddedCut()
    ensures |PaddedUnix| >= |UnixPrefix| && PaddedUnix[|UnixPrefix|..] == "//tmp/a.sock" && IsAscii(PaddedUnix)
  {
  }

  /**
    The corrected parser cuts the "unix://" prefix off the trimmed value, so
    white space around a `unix` address does not reach the socket path.
   */
  lemma PaddedUnixCorrected(value: string, parse: UrlParser)
    requires HasUnixPrefix(TrimSpace(value))
    requires ParseUrl(value, parse).Some? && IsUnixScheme(ParseUrl(value, parse).value.scheme)
    ensures ParseListenAddress(value, parse) == Endpoint("unix", TrimSpace(value)[|UnixPrefix|..])
  {
  }

  /**
    The corrected parser differs from the written one only where the written
    one panics or cuts: wherever the written one returns an endpoint and the
    value is not a `unix` address in another form, the two agree. A `unix`
    address is always a suffix of the trimmed value or the URL's host or path.
   */
  lemma CorrectedParserAgrees(value: string, parse: UrlParser)
    requires ParseListenAddressAsWritten(value, parse).Some?
    requires ParseUrl(value, parse).Some? && IsUnixScheme(ParseUrl(value, parse).value.scheme) ==>
      HasUnixPrefix(value) && !IsSpace(value[0]) && !IsSpace(value[|value| - 1])
    ensures ParseListenAddress(value, parse) == ParseListenAddressAsWritten(value, parse).value
  {
    if ParseUrl(value, parse).Some? && IsUnixScheme(ParseUrl(value, parse).value.scheme) {
      TrimSpaceKeeps(value);
    }
  }

  /** The server `apply` builds when the caller supplies none: an `http.Server` with these fields. */
  datatype HttpServer =
    | CallerHttpServer(id: nat)
    | StandardServer(addr: string, handler: Handler, maxHeaderBytes: int,
                     readTimeout: Duration, readHeaderTimeout: Duration, writeTimeout: Duration, idleTimeout: Duration,
                     baseContext: Context, errorLog: Logger)

  /** The `configuration` record. */
  datatype Config = Config(
    context: Context,
    contextShutdown: CancelFunc,
    handler: Handler,
    maxRequestHeaderSize: int,
    readRequestTimeout: Duration,
    readRequestHeaderTimeout: Duration,
    writeResponseTimeout: Duration,
    idleConnectionTimeout: Duration,
    shutdownTimeout: Duration,
    forceShutdownTimeout: Duration,
    listenNetwork: string,
    listenAddress: string,
    listenConfig: ListenConfig,
    listenAdapter: Option<ListenAdapter>,
    listenReady: Option<ReadyChannel>,
    tlsConfig: Option<TlsConfig>,
    handlePanic: bool,
    ignoredErrors: seq<Error>,
    monitor: Monitor,
    logger: Logger,
    errorLogger: Logger,
    httpServer: Option<HttpServer>)

  /** One `option`, named after the `Options` method that makes it. */
  datatype Setting =
    | WithContext(context: Context)
    | WithListenEndpoint(endpoint: Endpoint)
    | WithTLSConfig(Option<TlsConfig>)
    | WithHandler(handler: Handler)
    | WithHandlePanic(enabled: bool)
    | WithIgnoredErrors(seq<Error>)
    | WithHTTPServer(server: Option<HttpServer>)
    | WithMaxRequestHeaderSize(int)
    | WithReadRequestTimeout(Duration)
    | WithReadRequestHeaderTimeout(Duration)
    | WithWriteResponseTimeout(Duration)
    | WithIdleConnectionTimeout(Duration)
    | WithShutdownTimeout(Duration)
    | WithForceShutdownTimeout(Duration)
    | WithListenConfig(ListenConfig)
    | WithListenAdapter(Option<ListenAdapter>)
    | WithListenReady(Option<ReadyChannel>)
    | WithMonitor(Monitor)
    | WithLogger(Logger)
    | WithErrorLogger(Logger)

  /** The deprecated `SocketConfig` option does what `ListenConfig` does. */
  function SocketConfig(value: ListenConfig): (o: Setting)
    ensures forall c: Config :: Update(c, o) == Update(c, WithListenConfig(value))
  {
    WithListenConfig(value)
  }

  /**
    The ListenAddress option. The value is parsed when the option is built
    rather than when it is applied; `parseListenAddress` is pure, so the fields
    written are the same.
   */
  function ListenAddress(value: string, parse: UrlParser): (o: Setting)
    ensures KindOf(o) == ListenAddressKind
    ensures o.endpoint == ParseListenAddress(value, parse)
  {
    WithListenEndpoint(ParseListenAddress(value, parse))
  }

  /** Applying one option: the field write of its closure. */
  function Update(c: Config, o: Setting): Config
  {
    match o
    case WithContext(v) => c.(context := v)
    case WithListenEndpoint(e) => c.(listenNetwork := e.network, listenAddress := e.address)
    case WithTLSConfig(v) => c.(tlsConfig := v)
    case WithHandler(v) => c.(handler := v)
    case WithHandlePanic(v) => c.(handlePanic := v)
    case WithIgnoredErrors(v) => c.(ignoredErrors := v)
    case WithHTTPServer(v) => c.(httpServer := v)
    case WithMaxRequestHeaderSize(v) => c.(maxRequestHeaderSize := v)
    case WithReadRequestTimeout(v) => c.(readRequestTimeout := v)
    case WithReadRequestHeaderTimeout(v) => c.(readRequestHeaderTimeout := v)
    case WithWriteResponseTimeout(v) => c.(writeResponseTimeout := v)
    case WithIdleConnectionTimeout(v) => c.(idleConnectionTimeout := v)
    case WithShutdownTimeout(v) => c.(shutdownTimeout := v)
    case WithForceShutdownTimeout(v) => c.(forceShutdownTimeout := v)
    case WithListenConfig(v) => c.(listenConfig := v)
    case WithListenAdapter(v) => c.(listenAdapter := v)
    case WithListenReady(v) => c.(listenReady := v)
    case WithMonitor(v) => c.(monitor := v)
    case WithLogger(v) => c.(logger := v)
    case WithErrorLogger(v) => c.(errorLogger := v)
  }

  /** Applying options in order, the last one last. */
  function Fold(c: Config, os: seq<Setting>): Config
  {
    if |os| == 0 then c else Update(Fold(c, os[..|os| - 1]), os[|os| - 1])
  }

  /** The default listen address: the HTTP port on every interface. */
  const HttpAddress: string := ":http"

  /**
    `defaults`: the fixed list written before the caller's options, in
    config.go's order (grouped only to keep proofs about it small).
   */
  function Defaults(parse: UrlParser): seq<Setting>
  {
    [ListenAddress(HttpAddress, parse), WithTLSConfig(None), WithMaxRequestHeaderSize(1024 * 2)]
    + [WithReadRequestTimeout(Second * 5), WithReadRequestHeaderTimeout(Second), WithWriteResponseTimeout(Second * 90)]
    + [WithIdleConnectionTimeout(Second * 30), WithShutdownTimeout(Second * 5), WithForceShutdownTimeout(Second)]
    + [WithHandlePanic(true), WithIgnoredErrors([Canceled, DeadlineExceeded, TxDone]), WithContext(Background)]
    + [WithHandler(NopHandler), WithMonitor(NopMonitor), WithLogger(NopLogger)]
    + [WithErrorLogger(NopLogger), WithListenConfig(ReusePortListenConfig), WithListenAdapter(None)]
    + [WithListenReady(None)]
  }

  /** What `apply` does once every option is written: wrap the handler, derive the context, build a server if none was given. */
  function Finish(c: Config): Config
  {
    var handler := if c.handlePanic then RecoveryHandler(c.handler, c.ignoredErrors, c.monitor, c.logger) else c.handler;
    var context := CancelContext(c.context);
    var server :=
      if c.httpServer.Some? then c.httpServer
      else Some(StandardServer(c.listenAddress, handler, c.maxRequestHeaderSize,
                               c.readRequestTimeout, c.readRequestHeaderTimeout, c.writeResponseTimeout, c.idleConnectionTimeout,
                               context, c.errorLogger));
    c.(handler := handler, context := context, contextShutdown := CancelOf(context), httpServer := server)
  }

  /** `Options.apply(options...)` run on the record `c`. */
  function Assemble(c: Config, options: seq<Setting>, parse: UrlParser): Config
  {
    Finish(Fold(c, Defaults(parse) + options))
  }

  /** Which fields an option writes: options of one kind write the same fields, options of two kinds disjoint ones. */
  datatype OptionKind =
    | ContextKind | ListenAddressKind | TLSConfigKind | HandlerKind | HandlePanicKind | IgnoredErrorsKind
    | HTTPServerKind | MaxRequestHeaderSizeKind | ReadRequestTimeoutKind | ReadRequestHeaderTimeoutKind
    | WriteResponseTimeoutKind | IdleConnectionTimeoutKind | ShutdownTimeoutKind | ForceShutdownTimeoutKind
    | ListenConfigKind | ListenAdapterKind | ListenReadyKind | MonitorKind | LoggerKind | ErrorLoggerKind

  function KindOf(o: Setting): OptionKind
  {
    match o
    case WithContext(_) => ContextKind
    case WithListenEndpoint(_) => ListenAddressKind
    case WithTLSConfig(_) => TLSConfigKind
    case WithHandler(_) => HandlerKind
    case WithHandlePanic(_) => HandlePanicKind
    case WithIgnoredErrors(_) => IgnoredErrorsKind
    case WithHTTPServer(_) => HTTPServerKind
    case WithMaxRequestHeaderSize(_) => MaxRequestHeaderSizeKind
    case WithReadRequestTimeout(_) => ReadRequestTimeoutKind
    case WithReadRequestHeaderTimeout(_) => ReadRequestHeaderTimeoutKind
    case WithWriteResponseTimeout(_) => WriteResponseTimeoutKind
    case WithIdleConnectionTimeout(_) => IdleConnectionTimeoutKind
    case WithShutdownTimeout(_) => ShutdownTimeoutKind
    case WithForceShutdownTimeout(_) => ForceShutdownTimeoutKind
    case WithListenConfig(_) => ListenConfigKind
    case WithListenAdapter(_) => ListenAdapterKind
    case WithListenReady(_) => ListenReadyKind
    case WithMonitor(_) => MonitorKind
    case WithLogger(_) => LoggerKind
    case WithErrorLogger(_) => ErrorLoggerKind
  }

  /** The two records agree on the fields options of kind `k` write. */
  predicate AgreeOn(k: OptionKind, a: Config, b: Config)
  {
    match k
    case ContextKind => a.context == b.context
    case ListenAddressKind => a.listenNetwork == b.listenNetwork && a.listenAddress == b.listenAddress
    case TLSConfigKind => a.tlsConfig == b.tlsConfig
    case HandlerKind => a.handler == b.handler
    case HandlePanicKind => a.handlePanic == b.handlePanic
    case IgnoredErrorsKind => a.ignoredErrors == b.ignoredErrors
    case HTTPServerKind => a.httpServer == b.httpServer
    case MaxRequestHeaderSizeKind => a.maxRequestHeaderSize == b.maxRequestHeaderSize
    case ReadRequestTimeoutKind => a.readRequestTimeout == b.readRequestTimeout
    case ReadRequestHeaderTimeoutKind => a.readRequestHeaderTimeout == b.readRequestHeaderTimeout
    case WriteResponseTimeoutKind => a.writeResponseTimeout == b.writeResponseTimeout
    case IdleConnectionTimeoutKind => a.idleConnectionTimeout == b.idleConnectionTimeout
    case ShutdownTimeoutKind => a.shutdownTimeout == b.shutdownTimeout
    case ForceShutdownTimeoutKind => a.forceShutdownTimeout == b.forceShutdownTimeout
    case ListenConfigKind => a.listenConfig == b.listenConfig
    case ListenAdapterKind => a.listenAdapter == b.listenAdapter
    case ListenReadyKind => a.listenReady == b.listenReady
    case MonitorKind => a.monitor == b.monitor
    case LoggerKind => a.logger == b.logger
    case ErrorLoggerKind => a.errorLogger == b.errorLogger
  }

  /** The last option of kind `k`, if any. */
  function LastOfKind(os: seq<Setting>, k: OptionKind): (r: Option<Setting>)
    ensures r.Some? ==> r.value in os && KindOf(r.value) == k
  {
    if |os| == 0 then None
    else if KindOf(os[|os| - 1]) == k then Some(os[|os| - 1])
    else LastOfKind(os[..|os| - 1], k)
  }

  /**
    `LastOfKind` finds nothing exactly when no option has kind `k`, and
    otherwise an option of kind `k` that no later option of that kind follows.
   */
  lemma {:induction false} LastOfKindIsLast(os: seq<Setting>, k: OptionKind)
    ensures LastOfKind(os, k).None? <==> NoneAfter(os, -1, k)
    ensures LastOfKind(os, k).Some? ==>
      exists i :: 0 <= i < |os| && os[i] == LastOfKind(os, k).value && NoneAfter(os, i, k)
    decreases |os|
  {
    if |os| > 0 {
      var n := |os| - 1;
      var last := os[n];
      if KindOf(last) != k {
        var init := os[..n];
        assert LastOfKind(os, k) == LastOfKind(init, k);
        LastOfKindIsLast(init, k);
        LastOfKindInit(os, init, k, LastOfKind(init, k));
      }
    }
  }

  /** Dropping a last option of another kind keeps the answer and its witness. */
  lemma LastOfKindInit(os: seq<Setting>, init: seq<Setting>, k: OptionKind, r: Option<Setting>)
    requires |os| > 0 && init == os[..|os| - 1] && KindOf(os[|os| - 1]) != k
    requires r.None? <==> NoneAfter(init, -1, k)
    requires r.Some? ==> exists i :: 0 <= i < |init| && init[i] == r.value && NoneAfter(init, i, k)
    ensures r.None? <==> NoneAfter(os, -1, k)
    ensures r.Some? ==> exists i :: 0 <= i < |os| && os[i] == r.value && NoneAfter(os, i, k)
  {
    assert forall i :: 0 <= i < |init| ==> init[i] == os[i];
    if r.Some? {
      var i :| 0 <= i < |init| && init[i] == r.value && NoneAfter(init, i, k);
      assert NoneAfter(os, i, k);
    }
  }

  /** No option after position `i` has kind `k`. */
  predicate NoneAfter(os: seq<Setting>, i: int, k: OptionKind)
  {
    forall j :: 0 <= j < |os| && i < j ==> KindOf(os[j]) != k
  }

  lemma {:induction false} LastOfKindAppend(a: seq<Setting>, b: seq<Setting>, k: OptionKind)
    ensures LastOfKind(a + b, k) == if LastOfKind(b, k).Some? then LastOfKind(b, k) else LastOfKind(a, k)
    decreases |b|
  {
    if b == [] {
      assert a + b == a;
    } else {
      assert (a + b)[..|a + b| - 1] == a + b[..|b| - 1];
      LastOfKindAppend(a, b[..|b| - 1], k);
    }
  }

  lemma UpdateOwnKind(o: Setting, a: Config, b: Config)
    ensures AgreeOn(KindOf(o), Update(a, o), Update(b, o))
  {
  }

  lemma UpdateOtherKind(o: Setting, k: OptionKind, c: Config)
    requires KindOf(o) != k
    ensures AgreeOn(k, Update(c, o), c)
  {
  }

  lemma AgreeOnTrans(k: OptionKind, a: Config, b: Config, d: Config)
    requires AgreeOn(k, a, b) && AgreeOn(k, b, d)
    ensures AgreeOn(k, a, d)
  {
  }

  /**
    Last write wins: after a list of options, the fields of each kind hold what
    the last option of that kind wrote, and keep their old value when no option
    of that kind was given.
   */
  lemma {:induction false} LastWriteWins(c: Config, os: seq<Setting>, k: OptionKind)
    ensures LastOfKind(os, k).None? ==> AgreeOn(k, Fold(c, os), c)
    ensures LastOfKind(os, k).Some? ==> AgreeOn(k, Fold(c, os), Update(c, LastOfKind(os, k).value))
    decreases |os|
  {
    if os != [] {
      var init, last := os[..|os| - 1], os[|os| - 1];
      var before := Fold(c, init);
      LastWriteWins(c, init, k);
      if KindOf(last) == k {
        UpdateOwnKind(last, before, c);
      } else {
        UpdateOtherKind(last, k, before);
        if LastOfKind(init, k).None? {
          AgreeOnTrans(k, Fold(c, os), before, c);
        } else {
          AgreeOnTrans(k, Fold(c, os), before, Update(c, LastOfKind(init, k).value));
        }
      }
    }
  }

  /**
    The defaults, written on any record: the values config.go lists, with every
    field but the HTTP server and the cancel function overwritten. The default
    address ":http" is one `url.Parse` rejects, so it is TCP on ":http".
   */
  lemma DefaultValues(c: Config, parse: UrlParser)
    requires parse(HttpAddress) == None
    ensures var f := Fold(c, Defaults(parse));
      && f.listenNetwork == "tcp" && f.listenAddress == HttpAddress && f.tlsConfig == None
      && f.maxRequestHeaderSize == 2048
      && f.readRequestTimeout == 5 * Second && f.readRequestHeaderTimeout == Second
      && f.writeResponseTimeout == 90 * Second && f.idleConnectionTimeout == 30 * Second
      && f.shutdownTimeout == 5 * Second && f.forceShutdownTimeout == Second
      && f.handlePanic && f.ignoredErrors == SentinelErrors
      && f.context == Background && f.handler == NopHandler && f.monitor == NopMonitor
      && f.logger == NopLogger && f.errorLogger == NopLogger
      && f.listenConfig == ReusePortListenConfig && f.listenAdapter == None && f.listenReady == None
      && f.httpServer == c.httpServer && f.contextShutdown == c.contextShutdown
  {
    DefaultsRecord(c, parse);
  }

  /** The defaults as one record update. */
  lemma DefaultsRecord(c: Config, parse: UrlParser)
    requires parse(HttpAddress) == None
    ensures Fold(c, Defaults(parse))
      == c.(listenNetwork := "tcp", listenAddress := HttpAddress, tlsConfig := None, maxRequestHeaderSize := 2048,
            readRequestTimeout := 5 * Second, readRequestHeaderTimeout := Second, writeResponseTimeout := 90 * Second,
            idleConnectionTimeout := 30 * Second, shutdownTimeout := 5 * Second, forceShutdownTimeout := Second,
            handlePanic := true, ignoredErrors := SentinelErrors, context := Background,
            handler := NopHandler, monitor := NopMonitor, logger := NopLogger,
            errorLogger := NopLogger, listenConfig := ReusePortListenConfig, listenAdapter := None, listenReady := None)
  {
    DefaultAddress(parse);
    FoldNineteen(c, WithListenEndpoint(Endpoint("tcp", HttpAddress)), WithTLSConfig(None), WithMaxRequestHeaderSize(1024 * 2),
                 WithReadRequestTimeout(Second * 5), WithReadRequestHeaderTimeout(Second), WithWriteResponseTimeout(Second * 90), WithIdleConnectionTimeout(Second * 30), WithShutdownTimeout(Second * 5), WithForceShutdownTimeout(Second),
                 WithHandlePanic(true), WithIgnoredErrors([Canceled, DeadlineExceeded, TxDone]), WithContext(Background),
                 WithHandler(NopHandler), WithMonitor(NopMonitor), WithLogger(NopLogger), WithErrorLogger(NopLogger),
                 WithListenConfig(ReusePortListenConfig), WithListenAdapter(None), WithListenReady(None));
    DefaultsApplied(c);
  }

  /** The nineteen defaults applied one by one. */
  lemma DefaultsApplied(c: Config)
    ensures Update(Update(Update(Update(Update(Update(Update(Update(Update(Update(Update(Update(Update(Update(Update(Update(Update(Update(Update(c, WithListenEndpoint(Endpoint("tcp", HttpAddress))), WithTLSConfig(None)), WithMaxRequestHeaderSize(1024 * 2)), WithReadRequestTimeout(Second * 5)), WithReadRequestHeaderTimeout(Second)), WithWriteResponseTimeout(Second * 90)), WithIdleConnectionTimeout(Second * 30)), WithShutdownTimeout(Second * 5)), WithForceShutdownTimeout(Second)), WithHandlePanic(true)), WithIgnoredErrors([Canceled, DeadlineExceeded, TxDone])), WithContext(Background)), WithHandler(NopHandler)), WithMonitor(NopMonitor)), WithLogger(NopLogger)), WithErrorLogger(NopLogger)), WithListenConfig(ReusePortListenConfig)), WithListenAdapter(None)), WithListenReady(None))
      == c.(listenNetwork := "tcp", listenAddress := HttpAddress, tlsConfig := None, maxRequestHeaderSize := 2048,
            readRequestTimeout := 5 * Second, readRequestHeaderTimeout := Second, writeResponseTimeout := 90 * Second,
            idleConnectionTimeout := 30 * Second, shutdownTimeout := 5 * Second, forceShutdownTimeout := Second,
            handlePanic := true, ignoredErrors := SentinelErrors, context := Background,
            handler := NopHandler, monitor := NopMonitor, logger := NopLogger,
            errorLogger := NopLogger, listenConfig := ReusePortListenConfig, listenAdapter := None, listenReady := None)
  {
    var s1 := Update(Update(Update(c, WithListenEndpoint(Endpoint("tcp", HttpAddress))), WithTLSConfig(None)), WithMaxRequestHeaderSize(1024 * 2));
    DefaultsListen(c);
    var s2 := Update(Update(Update(s1, WithReadRequestTimeout(Second * 5)), WithReadRequestHeaderTimeout(Second)), WithWriteResponseTimeout(Second * 90));
    DefaultsRequestTimeouts(s1);
    var s3 := Update(Update(Update(s2, WithIdleConnectionTimeout(Second * 30)), WithShutdownTimeout(Second * 5)), WithForceShutdownTimeout(Second));
    DefaultsShutdownTimeouts(s2);
    var s4 := Update(Update(Update(s3, WithHandlePanic(true)), WithIgnoredErrors([Canceled, DeadlineExceeded, TxDone])), WithContext(Background));
    DefaultsPanic(s3);
    var s5 := Update(Update(Update(s4, WithHandler(NopHandler)), WithMonitor(NopMonitor)), WithLogger(NopLogger));
    DefaultsCollaborators(s4);
    var s6 := Update(Update(Update(s5, WithErrorLogger(NopLogger)), WithListenConfig(ReusePortListenConfig)), WithListenAdapter(None));
    DefaultsSocket(s5);
  }

  /** Applying seven lists in turn, the shape `Defaults` has, is applying their elements one by one. */
  lemma FoldNineteen(c: Config, x1: Setting, x2: Setting, x3: Setting, x4: Setting, x5: Setting, x6: Setting,
                     x7: Setting, x8: Setting, x9: Setting, x10: Setting, x11: Setting, x12: Setting, x13: Setting,
                     x14: Setting, x15: Setting, x16: Setting, x17: Setting, x18: Setting, x19: Setting)
    ensures Fold(c, [x1, x2, x3] + [x4, x5, x6] + [x7, x8, x9] + [x10, x11, x12] + [x13, x14, x15] + [x16, x17, x18] + [x19])
      == Update(Update(Update(Update(Update(Update(Update(Update(Update(Update(Update(Update(Update(Update(Update(Update(Update(Update(Update(c, x1), x2), x3), x4), x5), x6), x7), x8), x9), x10), x11), x12), x13), x14), x15), x16), x17), x18), x19)
  {
    FoldSeven(c, [x1, x2, x3], [x4, x5, x6], [x7, x8, x9], [x10, x11, x12], [x13, x14, x15], [x16, x17, x18], [x19]);
    FoldThree(c, x1, x2, x3);
    var u1 := Update(Update(Update(c, x1), x2), x3);
    FoldThree(u1, x4, x5, x6);
    var u2 := Update(Update(Update(u1, x4), x5), x6);
    FoldThree(u2, x7, x8, x9);
    var u3 := Update(Update(Update(u2, x7), x8), x9);
    FoldThree(u3, x10, x11, x12);
    var u4 := Update(Update(Update(u3, x10), x11), x12);
    FoldThree(u4, x13, x14, x15);
    var u5 := Update(Update(Update(u4, x13), x14), x15);
    FoldThree(u5, x16, x17, x18);
    var u6 := Update(Update(Update(u5, x16), x17), x18);
    FoldOne(u6, x19);
  }

  lemma DefaultsListen(c: Config)
    ensures Update(Update(Update(c, WithListenEndpoint(Endpoint("tcp", HttpAddress))), WithTLSConfig(None)), WithMaxRequestHeaderSize(1024 * 2))
      == c.(listenNetwork := "tcp", listenAddress := HttpAddress, tlsConfig := None, maxRequestHeaderSize := 2048)
  {
  }

  lemma DefaultsRequestTimeouts(c: Config)
    ensures Update(Update(Update(c, WithReadRequestTimeout(Second * 5)), WithReadRequestHeaderTimeout(Second)), WithWriteResponseTimeout(Second * 90))
      == c.(readRequestTimeout := 5 * Second, readRequestHeaderTimeout := Second, writeResponseTimeout := 90 * Second)
  {
  }

  lemma DefaultsShutdownTimeouts(c: Config)
    ensures Update(Update(Update(c, WithIdleConnectionTimeout(Second * 30)), WithShutdownTimeout(Second * 5)), WithForceShutdownTimeout(Second))
      == c.(idleConnectionTimeout := 30 * Second, shutdownTimeout := 5 * Second, forceShutdownTimeout := Second)
  {
  }

  lemma DefaultsPanic(c: Config)
    ensures Update(Update(Update(c, WithHandlePanic(true)), WithIgnoredErrors([Canceled, DeadlineExceeded, TxDone])), WithContext(Background))
      == c.(handlePanic := true, ignoredErrors := SentinelErrors, context := Background)
  {
  }

  lemma DefaultsCollaborators(c: Config)
    ensures Update(Update(Update(c, WithHandler(NopHandler)), WithMonitor(NopMonitor)), WithLogger(NopLogger))
      == c.(handler := NopHandler, monitor := NopMonitor, logger := NopLogger)
  {
  }

  lemma DefaultsSocket(c: Config)
    ensures Update(Update(Update(c, WithErrorLogger(NopLogger)), WithListenConfig(ReusePortListenConfig)), WithListenAdapter(None))
      == c.(errorLogger := NopLogger, listenConfig := ReusePortListenConfig, listenAdapter := None)
  {
  }

  lemma FoldSeven(c: Config, a: seq<Setting>, b: seq<Setting>, d: seq<Setting>, e: seq<Setting>,
                   g: seq<Setting>, h: seq<Setting>, k: seq<Setting>)
    ensures Fold(c, a + b + d + e + g + h + k) == Fold(Fold(Fold(Fold(Fold(Fold(Fold(c, a), b), d), e), g), h), k)
  {
    FoldAppend(c, a + b + d + e + g + h, k);
    FoldAppend(c, a + b + d + e + g, h);
    FoldAppend(c, a + b + d + e, g);
    FoldAppend(c, a + b + d, e);
    FoldAppend(c, a + b, d);
    FoldAppend(c, a, b);
  }

  lemma FoldOne(c: Config, x: Setting)
    ensures Fold(c, [x]) == Update(c, x)
  {
    FoldSnoc(c, [], x);
    assert [] + [x] == [x];
  }

  lemma FoldThree(c: Config, x: Setting, y: Setting, z: Setting)
    ensures Fold(c, [x, y, z]) == Update(Update(Update(c, x), y), z)
  {
    FoldSnoc(c, [], x);
    FoldSnoc(c, [x], y);
    FoldSnoc(c, [x, y], z);
    assert [] + [x] == [x];
    assert [x] + [y] == [x, y];
    assert [x, y] + [z] == [x, y, z];
  }

  /** The default address ":http" is one `url.Parse` rejects, so it is TCP on ":http". */
  lemma DefaultAddress(parse: UrlParser)
    requires parse(HttpAddress) == None
    ensures ListenAddress(HttpAddress, parse) == WithListenEndpoint(Endpoint("tcp", HttpAddress))
  {
    HttpAddressTrimmed();
    UnparsedAddressIsTcp(HttpAddress, parse);
  }

  lemma HttpAddressTrimmed()
    ensures TrimSpace(HttpAddress) == HttpAddress
  {
    TrimSpaceKeeps(HttpAddress);
  }

  lemma FoldSnoc(c: Config, a: seq<Setting>, x: Setting)
    ensures Fold(c, a + [x]) == Update(Fold(c, a), x)
  {
    assert (a + [x])[..|a + [x]| - 1] == a;
  }

  /** Applying two lists of options in turn is applying their concatenation. */
  lemma {:induction false} FoldAppend(c: Config, a: seq<Setting>, b: seq<Setting>)
    ensures Fold(c, a + b) == Fold(Fold(c, a), b)
    decreases |b|
  {
    if b == [] {
      assert a + b == a;
    } else {
      assert (a + b)[..|a + b| - 1] == a + b[..|b| - 1];
      FoldAppend(c, a, b[..|b| - 1]);
    }
  }

  /** `apply` is the finishing steps run on the defaults' record with the caller's options written over it. */
  lemma AssembleSplit(c: Config, options: seq<Setting>, parse: UrlParser)
    ensures Assemble(c, options, parse) == Finish(Fold(Fold(c, Defaults(parse)), options))
  {
    FoldAppend(c, Defaults(parse), options);
  }

  /** The finishing steps touch only the handler, the context and its cancel function, and the HTTP server. */
  lemma FinishAgrees(c: Config, k: OptionKind)
    requires k != HandlerKind && k != ContextKind && k != HTTPServerKind
    ensures AgreeOn(k, Finish(c), c)
  {
  }

  /**
    Last write wins across `apply`: for every field the finishing steps leave
    alone, the configuration holds the caller's last value for it, and the
    default when the caller gave none.
   */
  lemma CallerOptionWins(c: Config, options: seq<Setting>, parse: UrlParser, k: OptionKind)
    requires k != HandlerKind && k != ContextKind && k != HTTPServerKind
    ensures LastOfKind(options, k).Some? ==> AgreeOn(k, Assemble(c, options, parse), Update(c, LastOfKind(options, k).value))
    ensures LastOfKind(options, k).None? ==> AgreeOn(k, Assemble(c, options, parse), Fold(c, Defaults(parse)))
  {
    var d := Fold(c, Defaults(parse));
    var f := Fold(d, options);
    AssembleSplit(c, options, parse);
    LastWriteWins(d, options, k);
    FinishAgrees(f, k);
    if LastOfKind(options, k).Some? {
      var last := LastOfKind(options, k).value;
      UpdateOwnKind(last, d, c);
      AgreeOnTrans(k, f, Update(d, last), Update(c, last));
      AgreeOnTrans(k, Finish(f), f, Update(c, last));
    } else {
      AgreeOnTrans(k, Finish(f), f, d);
    }
  }

  /** How many recovery handlers are stacked around the innermost handler. */
  function RecoveryDepth(h: Handler): nat
  {
    match h
    case RecoveryHandler(inner, _, _, _) => 1 + RecoveryDepth(inner)
    case _ => 0
  }

  /** An option that is not a Handler option carrying an already wrapped handler. */
  predicate PlainHandler(o: Setting)
  {
    o.WithHandler? ==> !o.handler.RecoveryHandler?
  }

  /** Panic handling is on unless the caller's last HandlePanic option turns it off. */
  predicate PanicHandled(options: seq<Setting>)
  {
    LastOfKind(options, HandlePanicKind) != Some(WithHandlePanic(false))
  }

  /** The handler the caller's options leave in place: the last one given, or the no-op default. */
  function ChosenHandler(options: seq<Setting>): Handler
  {
    if LastOfKind(options, HandlerKind).Some? then LastOfKind(options, HandlerKind).value.handler else NopHandler
  }

  /**
    The finishing steps on a record with panic handling on and a plain
    handler, after the caller's options: one recovery handler around the
    chosen handler exactly when panic handling is still on.
   */
  lemma FinishWrapsOnce(d: Config, options: seq<Setting>)
    requires d.handlePanic && d.handler == NopHandler
    requires forall i :: 0 <= i < |options| ==> PlainHandler(options[i])
    ensures var h := Finish(Fold(d, options)).handler;
      && RecoveryDepth(h) == (if PanicHandled(options) then 1 else 0)
      && (PanicHandled(options) ==> h.RecoveryHandler? && h.inner == ChosenHandler(options))
      && (!PanicHandled(options) ==> h == ChosenHandler(options))
  {
    LastWriteWins(d, options, HandlerKind);
    LastWriteWins(d, options, HandlePanicKind);
    var last := LastOfKind(options, HandlerKind);
    if last.Some? {
      var i :| 0 <= i < |options| && options[i] == last.value;
      assert PlainHandler(options[i]);
    }
  }

  /**
    The handler is wrapped in the recovery handler exactly once when panic
    handling is on after every option, and not at all when it is off,
    around the caller's last handler or the no-op default.
   */
  lemma HandlerWrappedOnce(c: Config, options: seq<Setting>, parse: UrlParser)
    requires parse(HttpAddress) == None
    requires forall i :: 0 <= i < |options| ==> PlainHandler(options[i])
    ensures var h := Assemble(c, options, parse).handler;
      && RecoveryDepth(h) == (if PanicHandled(options) then 1 else 0)
      && (PanicHandled(options) ==> h.RecoveryHandler? && h.inner == ChosenHandler(options))
      && (!PanicHandled(options) ==> h == ChosenHandler(options))
  {
    AssembleSplit(c, options, parse);
    DefaultValues(c, parse);
    FinishWrapsOnce(Fold(c, Defaults(parse)), options);
  }

  /** The server the caller's last HTTPServer option gives, or `start` when there is none. */
  function GivenServer(options: seq<Setting>, start: Option<HttpServer>): Option<HttpServer>
  {
    var last := LastOfKind(options, HTTPServerKind);
    if last.Some? then last.value.server else start
  }

  /** The server the finishing steps find after the options: the one given last, or the starting record's. */
  lemma FinishServer(d: Config, options: seq<Setting>)
    ensures var a := Finish(Fold(d, options));
      var given := GivenServer(options, d.httpServer);
      && (given.Some? ==> a.httpServer == given)
      && (given.None? ==>
            a.httpServer == Some(StandardServer(a.listenAddress, a.handler, a.maxRequestHeaderSize,
                                                a.readRequestTimeout, a.readRequestHeaderTimeout, a.writeResponseTimeout,
                                                a.idleConnectionTimeout, a.context, a.errorLogger)))
  {
    LastWriteWins(d, options, HTTPServerKind);
  }

  /**
    A server the caller supplied last, or the starting record held, is kept as
    it is; when there is none, a standard server is built from the final
    configuration: its address, wrapped handler, limits, timeouts, derived
    context and error logger.
   */
  lemma ServerKeptOrBuilt(c: Config, options: seq<Setting>, parse: UrlParser)
    requires parse(HttpAddress) == None
    ensures var a := Assemble(c, options, parse);
      var given := GivenServer(options, c.httpServer);
      && (given.Some? ==> a.httpServer == given)
      && (given.None? ==>
            a.httpServer == Some(StandardServer(a.listenAddress, a.handler, a.maxRequestHeaderSize,
                                                a.readRequestTimeout, a.readRequestHeaderTimeout, a.writeResponseTimeout,
                                                a.idleConnectionTimeout, a.context, a.errorLogger)))
  {
    AssembleSplit(c, options, parse);
    DefaultValues(c, parse);
    FinishServer(Fold(c, Defaults(parse)), options);
  }

  /** The context the caller's last Context option gives, or `start` when there is none. */
  function ChosenContext(options: seq<Setting>, start: Context): Context
  {
    var last := LastOfKind(options, ContextKind);
    if last.Some? then last.value.context else start
  }

  /** The context after the finishing steps: a cancellable child of the last context written, cancelled by the stored function. */
  lemma FinishContext(d: Config, options: seq<Setting>)
    ensures var a := Finish(Fold(d, options));
      && a.context == CancelContext(ChosenContext(options, d.context))
      && a.contextShutdown == CancelOf(a.context)
  {
    LastWriteWins(d, options, ContextKind);
  }

  /** The context is a cancellable child of the caller's last context, or of the background context, and the cancel function cancels it. */
  lemma ContextDerived(c: Config, options: seq<Setting>, parse: UrlParser)
    requires parse(HttpAddress) == None
    ensures var a := Assemble(c, options, parse);
      && a.context == CancelContext(ChosenContext(options, Background))
      && a.contextShutdown == CancelOf(a.context)
  {
    AssembleSplit(c, options, parse);
    DefaultValues(c, parse);
    FinishContext(Fold(c, Defaults(parse)), options);
  }

  /** No option writes the cancel function, so the one the record starts with is carried through unchanged. */
  lemma {:induction false} FoldKeepsCancel(c: Config, s: CancelFunc, os: seq<Setting>)
    ensures Fold(c.(contextShutdown := s), os) == Fold(c, os).(contextShutdown := s)
    decreases |os|
  {
    if |os| > 0 {
      FoldKeepsCancel(c, s, os[..|os| - 1]);
      UpdateKeepsCancel(Fold(c, os[..|os| - 1]), s, os[|os| - 1]);
    }
  }

  lemma UpdateKeepsCancel(c: Config, s: CancelFunc, o: Setting)
    ensures Update(c.(contextShutdown := s), o) == Update(c, o).(contextShutdown := s)
  {
  }

  /** The record the defaults leave depends on the starting one only through its server and cancel function. */
  lemma DefaultsOverwrite(a: Config, b: Config, parse: UrlParser)
    requires parse(HttpAddress) == None
    requires a.httpServer == b.httpServer
    ensures Fold(a, Defaults(parse)) == Fold(b, Defaults(parse)).(contextShutdown := a.contextShutdown)
  {
    DefaultsRecord(a, parse);
    DefaultsRecord(b, parse);
  }

  /**
    `apply` overwrites everything but the server: two starting records with
    the same server give the same configuration, so the zero record `New`
    starts from matters only through its missing server.
   */
  lemma AssembleIgnoresStart(a: Config, b: Config, options: seq<Setting>, parse: UrlParser)
    requires parse(HttpAddress) == None
    requires a.httpServer == b.httpServer
    ensures Assemble(a, options, parse) == Assemble(b, options, parse)
  {
    var db := Fold(b, Defaults(parse));
    AssembleSplit(a, options, parse);
    AssembleSplit(b, options, parse);
    DefaultsOverwrite(a, b, parse);
    FoldKeepsCancel(db, a.contextShutdown, options);
  }

  /**
    The `*configuration` that `apply`'s closure writes through: the record
    behind the pointer, whose fields each option's closure (`Update`) and the
    finishing steps overwrite.
   */
  class Configuration {
    var value: Config

    constructor (c: Config)
      ensures value == c
    {
      value := c;
    }

    /** The loop of `apply`'s closure: each item's closure called on the record, in order. */
    method WriteAll(items: seq<Setting>)
      modifies this
      ensures value == Fold(old(value), items)
    {
      var i := 0;
      while i < |items|
        invariant 0 <= i <= |items|
        invariant value == Fold(old(value), items[..i])
      {
        assert items[..i + 1] == items[..i] + [items[i]];
        FoldSnoc(old(value), items[..i], items[i]);
        value := Update(value, items[i]);
        i := i + 1;
      }
      assert items[..|items|] == items;
    }

    /**
      `apply`'s closure: every default and then every caller option written in
      order, then the handler wrapped when panic handling is on, the context
      replaced by a cancellable child, and a standard server built when none
      was supplied.
     */
    method Apply(options: seq<Setting>, parse: UrlParser)
      modifies this
      ensures value == Assemble(old(value), options, parse)
    {
      WriteAll(Defaults(parse) + options);
      if value.handlePanic {
        value := value.(handler := RecoveryHandler(value.handler, value.ignoredErrors, value.monitor, value.logger));
      }
      var context := CancelContext(value.context);
      value := value.(context := context, contextShutdown := CancelOf(context));
      if value.httpServer.None? {
        value := value.(httpServer := Some(StandardServer(value.listenAddress, value.handler, value.maxRequestHeaderSize,
                                                          value.readRequestTimeout, value.readRequestHeaderTimeout,
                                                          value.writeResponseTimeout, value.idleConnectionTimeout,
                                                          value.context, value.errorLogger)));
      }
    }
  }
}
