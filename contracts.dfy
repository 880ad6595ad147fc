/**
  The collaborators the server talks to, as opaque markers: a value of one of
  these types only says WHICH collaborator is meant. Their behaviour is not
  modelled; where it matters (a bind, a serve or a shutdown result) it is an
  input of the operation that calls them.
 */
module Contracts {

  /** A `context.Context`: the background context, one supplied by a caller, or one derived by `context.WithCancel`. */
  datatype Context = Background | CallerContext(id: nat) | CancelContext(parent: Context)

  /** The `context.CancelFunc` that cancels the given derived context. */
  datatype CancelFunc = NoCancel | CancelOf(context: Context)

  /** The `monitor` interface: the no-op default or one supplied by a caller. */
  datatype Monitor = NopMonitor | CallerMonitor(id: nat)

  /** The `logger` interface: the no-op default or one supplied by a caller. */
  datatype Logger = NopLogger | CallerLogger(id: nat)

  /** The `listenConfig` interface: the default one that sets SO_REUSEPORT, or one supplied by a caller. */
  datatype ListenConfig = ReusePortListenConfig | CallerListenConfig(id: nat)

  /** A `*tls.Config`. */
  datatype TlsConfig = TlsConfig(id: nat)

  /** A `func(net.Listener) net.Listener` listener adapter. */
  datatype ListenAdapter = ListenAdapter(id: nat)

  /** A `chan<- bool` readiness channel. */
  datatype ReadyChannel = ReadyChannel(id: nat)

  /** An `*http.Request`. */
  datatype Request = Request(id: nat)

  /** An `http.ResponseWriter`. */
  datatype ResponseWriter = ResponseWriter(id: nat)
}
