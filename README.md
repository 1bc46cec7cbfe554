# slt: round-robin backend selection and configuration validation

slt is a TLS reverse proxy. It reads the SNI hostname from each incoming
ClientHello and forwards the still-encrypted stream to one of the backends
of the frontend registered for that hostname, unless the frontend names a
certificate/key pair: then it terminates TLS with the configuration that
validation attached and forwards the decrypted bytes (server.go:96-99).
This project models the two pieces of sequential logic in `server.go` and proves properties about them:

- **Round-robin backend selection** (module `RoundRobin`). A
  `RoundRobinStrategy` holds a fixed sequence of backends and a mutable
  cursor `idx`, starting at 0. With one backend, `NextBackend` returns it
  and does not move the cursor. With more backends, it first advances the
  cursor modulo the number of backends and then returns the backend at the
  new cursor. So a fresh strategy's first pick is the backend at index 1.
  The pure function `Cursors` gives the cursor after each of `k`
  successive calls. The lemmas prove the following about it:
  - one backend: the cursor never moves;
  - several backends: pick `j` lands at `(idx + 1 + j) mod n`;
  - any `n` successive picks visit every position exactly once and end where they started;
  - `NextCycle` makes `n` real calls of `NextBackend`. It gets every backend, in cyclic order, and leaves the cursor where it was.
- **Configuration validation** (module `Validation`). This is the part of
  `readConfig` after the YAML file has been deserialised. The configuration
  is refused if:
  - the bind address is empty (checked before any frontend is looked at);
  - there are no frontends;
  - a frontend has no backends;
  - a backend has an empty address;
  - a frontend names a certificate or key path and the pair does not load.

  Frontends are objects (`Config.Frontend`) reached through the
  configuration's map. Validation assigns `tlsConfig` in place, and only on
  frontends that name a certificate or a key. The map is walked in an
  unspecified order: the loop picks any key not yet examined. The method is
  proved equivalent to the predicate `Acceptable`. Acceptance implies what
  `NextBackend` needs: every frontend has at least one backend
  (`StrategyFor`). Acceptance also demands more than that.
- **Configuration entities** (module `Config`): `Backend`, `Frontend`,
  `Configuration`, and the constant `DefaultConnectTimeout` (10000 ms).

Three behaviours of the code are modelled as written. In each, the code
differs from what one might expect.

- The connect-timeout default (10000 ms for a zero timeout) goes onto a
  copy of each backend made by the range loop. The copy is then thrown
  away, so the stored backends keep a zero timeout. `CheckBackends`
  computes the defaulted copy and drops it. `ValidateConfiguration`
  promises that no frontend's backends change. `OneFrontendScenario` builds
  a frontend whose backend has no timeout and shows that the stored backend
  still has a zero timeout after validation.
- The cursor moves before the first pick. Two connections to a frontend
  with backends `[b1, b2]` therefore go to `b2` and then `b1`
  (`TwoBackendScenario`). A round robin that starts at index 0 would
  send the first connection to `b1`.
- The code does not require both TLS paths. It tries to load the pair when
  either path is set, and the loader decides whether that succeeds.

Everything the model treats as external is a parameter. Loading a
certificate/key pair is the function `canLoad: (string, string) -> bool`:
whether the pair at those paths loads. `Validation.LoadTlsConfig` wraps
this parameter in place of `loadTLSConfig` (server.go:231-240). It yields a
configuration exactly when `canLoad` holds. A loaded configuration is
recorded as the pair of paths it came from (`Config.TlsConfig`). The
contract of `LoadTlsConfig` only describes this interface and is not a
property of the source.

## Model

| member | source | states |
|---|---|---|
| `Config.WithDefaultTimeout` | server.go:209-212 | the defaulted backend keeps its address, has a non-zero timeout (the 10000 ms default when it had none), and is unchanged when it already had a timeout |
| `Config.Frontend.constructor` | server.go:32-40 | a deserialised frontend holds its backends, strategy name and TLS paths, and has no TLS configuration yet |
| `RoundRobin.Advance` | server.go:151-159 | one pick keeps the cursor in range; with one backend the cursor stays put; otherwise it moves to the next position and wraps from the last to 0 |
| `RoundRobin.Cursors` | server.go:151-159 | `k` successive picks yield exactly `k` cursors, each a valid backend position |
| `RoundRobin.SingleBackendNeverAdvances` | server.go:154-155 | with a single backend, every pick leaves the cursor where it was |
| `RoundRobin.CursorsAt` | server.go:157-158 | with more than one backend, the j-th pick from cursor `idx` is position `(idx + 1 + j) mod n` |
| `RoundRobin.FullCycleVisitsEachOnce` | server.go:154-158 | with `n >= 1` backends, any `n` successive picks return pairwise distinct positions, cover every position, and the last is the starting cursor |
| `RoundRobin.FirstPickIsSecondBackend` | server.go:146-158 | from the initial cursor 0, the first pick over several backends is position 1, not 0 |
| `RoundRobin.RoundRobinStrategy.constructor` | server.go:80 | a new strategy holds the frontend's backends with the cursor at 0; it satisfies the invariant exactly when there is at least one backend |
| `RoundRobin.RoundRobinStrategy.NextBackend` | server.go:151-160 | keeps the invariant `0 <= idx < n`, sets the cursor to `Advance(old idx)`, returns the backend at the new cursor (an element of the backends), and does not move the cursor with one backend |
| `RoundRobin.RoundRobinStrategy.NextBackends` | server.go:151-160 | `k` successive calls of `NextBackend` return the backends at `Cursors(n, idx, k)` in order, and leave the cursor at the last of them |
| `RoundRobin.CycleCursors` | server.go:154-158 | within one full cycle, with any number of backends, pick `j` is `j + 1` positions after the starting cursor, wrapping past the last backend at most once |
| `RoundRobin.CycleCoversAll` | server.go:154-158 | the backends picked at the cursors of `n` successive picks are one per backend, in cyclic order, cover every backend, and the cursor ends where it started |
| `RoundRobin.RoundRobinStrategy.NextCycle` | server.go:151-160 | `n` successive calls of `NextBackend` return every backend, in cyclic order from the one after the cursor, and leave the cursor unchanged |
| `RoundRobin.TwoBackendScenario` | server.go:151-160 | with backends `[b1, b2]`, the first connection gets `b2` and the second `b1` |
| `Validation.FrontendFaultOf` | server.go:203-225 | a frontend passes exactly when it has a backend, every backend has an address, and a requested TLS pair loads; otherwise the fault is the first failed check: no backends; else a backend without an address; else a TLS pair that does not load, each stated as an if-and-only-if |
| `Validation.CheckBackends` | server.go:209-218 | accepts exactly when every backend has a non-empty address; the defaulted timeout goes only to a local copy |
| `Validation.ValidateFrontend` | server.go:204-225 | the result is the frontend's fault; on success the TLS configuration is attached when a path is given and left alone otherwise; on a missing backend or backend address it is untouched, the checks returning before the load; after a failed load it is none |
| `Validation.ValidateConfiguration` | server.go:192-228 | no error exactly when the configuration is acceptable; an empty bind address is reported before any frontend is touched; no frontends is reported next; with a bind address and at least one frontend, every error is a frontend error; a frontend error names a frontend that really has that fault, whose TLS configuration is untouched on a backend fault and none after a failed load; on success every frontend that gives a path holds its loaded TLS configuration and the others keep theirs; no frontend's backends change |
| `Validation.AcceptableMeans` | server.go:192-228 | an accepted configuration has a bind address, at least one frontend, at least one backend per frontend, a non-empty address for every backend, and a loadable pair wherever TLS is requested; and the converse |
| `Validation.OneFrontendScenario` | server.go:192-228 | a freshly deserialised configuration with one frontend and one backend without a timeout is accepted exactly when it has a bind address, the backend an address and a requested pair loads, with the matching frontend error otherwise; the stored backend keeps its zero timeout; the frontend ends with the loaded pair when accepted with a path given, and with no TLS configuration in every other case |
| `Validation.StrategyFor` | server.go:80 | the strategy built for a frontend of an accepted configuration satisfies the invariant `NextBackend` requires |

## Left out

- SNI hostname extraction, the replay buffer and the TLS muxer: they live in the `go-vhost` package, which is not part of this model (server.go:7, 61, 68).
- `joinConnections`: two goroutines copy bytes between sockets under a wait group. That is concurrency and socket I/O (server.go:125-140).
- `Start`, `RunFrontend` and `proxyConnection`: network accept loops, dialling with a timeout, and TLS server wrapping. Only the strategy construction at server.go:80 is modelled (`StrategyFor`).
- Concurrent calls of `NextBackend`: the source calls it from a `proxyConnection` goroutine per connection, with no lock. The model treats calls as sequential.
- The body of `loadTLSConfig` (X.509 key-pair parsing) is replaced by the `canLoad` oracle.
- `parseArgs`, reading the file, YAML decoding, logging and `main` are command-line and file I/O (server.go:163-190, 242-263).
- `NextBackend` with no backends: the source divides by zero and panics at server.go:157. The strategy's invariant `Valid()` requires at least one backend, so the model excludes this case. An accepted configuration never reaches it (`StrategyFor`).
- The exact error message texts. The model reports the kind of error and the frontend's name.
- Which bad frontend is reported first: Go map iteration order is unspecified, so the model picks any frontend not yet examined. The mux timeout constant (server.go:19) is used only by the muxer.
- A frontend entry that decodes to a nil pointer: the source would dereference it and panic at server.go:204. The model's map holds only non-nil frontends.
- The `Strategy` field of a frontend is read from YAML, but the source never uses it. It is a plain field in the model. The runtime `strategy` field, set by `RunFrontend`, is not modelled.
- Integer widths: Go's `int` is 32 or 64 bits, depending on the platform. The cursor stays below the number of backends, so it overflows at neither width. Go's truncating `%` agrees with Dafny's on the non-negative operands that occur here. In the modelled code, connect timeouts are only compared with zero; their conversion to a dial timeout with `time.Duration(backend.ConnectTimeout) * time.Millisecond` (server.go:112) is part of `proxyConnection`, which is not modelled.
