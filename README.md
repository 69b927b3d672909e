# gossiper, modelled in Dafny

`gossiper` is a single-process cluster node. It wraps the `hashicorp/memberlist`
gossip engine: it builds an engine configuration from its command-line flags,
creates the engine, optionally joins one peer, and on an interrupt leaves the
cluster gracefully and shuts the engine down.

This project models the two parts of `main.go` that hold logic of their own.

- **Bind-address parsing** (`main.go:75-85`). The code sits inline in `main`;
  here it is the pure function `Bind.ParseBind` with `Bind.ConfigFromFlags`
  around it. It rests on two models of the Go library:
  - `Numeric.Atoi` is Go's `strconv.Atoi` on a 64-bit `int`.
  - `Strings.Split` is Go's `strings.Split` with a one-character separator.

  Each is proved against an inverse: `Numeric.Itoa` for `Atoi` and
  `Strings.Join` for `Split`.
- **The `Gossiper` lifecycle** (`main.go:14-55`) is the class `Gossip.Gossiper`.
  - The engine handle, `Gossip.Memberlist`, only records the calls made on it
    (`CreateCall`, `JoinCall`, `LeaveCall`, `ShutdownCall`). The results it
    returns are unconstrained.
  - The flag `signalled` stands for the value `Leave` sends on the unbuffered
    `shutdownCh`. The flag `received` stands for `Wait` taking that value.
  - `Gossip.History` is the shape every engine trace has. `Gossiper.Valid()`
    ties the recorded calls to it.
  - `Gossip.MemberlistPackage` records every configuration `ml.Create` is
    called with and what each call returned, so that whether the engine is
    reached, and whether it started, can be stated.
  - `Gossip.Start` is `main` up to the final `PrintMembers` and `Wait`.

Files: `wrappers.dfy` (Option, Result), `numeric.dfy`, `strings.dfy`,
`bind.dfy`, `gossip.dfy`.

Some behaviours of `main.go` are easy to miss:

- The host is not checked, so `":7000"` binds the empty host (main.go:77).
- The port has no range check, so `"h:-1"` gives port -1 (main.go:79, 83).
- The input is split on every `:`, and pieces after the second are ignored
  (main.go:76).
- The engine is created without a delegate, so none is modelled
  (main.go:75-87).

## Model

| member | source | states |
|---|---|---|
| `Numeric.Atoi` | main.go:79 | Every accepted value fits a 64-bit `int`. Empty text is rejected, and so is a lone sign. A first character that is neither a sign nor a digit is rejected, and so is any later non-digit. A leading `-` gives a value <= 0; otherwise the value is >= 0. |
| `Numeric.AtoiItoa` | main.go:79 | Round trip: `Atoi` reads back every 64-bit `int` written in decimal, negative values included. It rejects the decimal form of every integer outside that range (overflow). |
| `Numeric.AtoiCanonical` | main.go:79 | Converse: accepted text with no `+`, no leading zeros and no `-0` is exactly the decimal form of the value read, so the value is the one the digits denote. |
| `Numeric.AtoiPlusSign` | main.go:79 | A leading `+` before the digits is accepted and does not change the value. |
| `Numeric.AtoiLeadingZero` | main.go:79 | Leading zeros are accepted and do not change the value, both for unsigned digits and after a `-`. With `AtoiPlusSign` this also covers text after a `+`. |
| `Numeric.AtoiMinusZero` | main.go:79 | `-0` is accepted and reads as zero. |
| `Strings.Split` | main.go:76 | There is always at least one piece. No piece contains the separator. Joining the pieces with the separator gives back the input. |
| `Strings.SplitNoSep` | main.go:76 | Text without a separator splits into exactly itself. |
| `Strings.SplitAtFirstSep` | main.go:76 | The text before the first separator is the first piece, and the rest splits on its own. |
| `Strings.SplitJoin` | main.go:76 | Split undoes Join for pieces free of the separator. |
| `Strings.SplitFirstPiece` | main.go:76-77 | The first piece is the longest prefix that contains no separator. |
| `Bind.ParseBind` | main.go:75-84 | The host is exactly the text before the first `:`, or the whole input when there is no `:`. Without a `:` the port is the default. A failure needs a `:` and a port piece that `Atoi` rejects. |
| `Bind.ConfigFromFlags` | main.go:75-85 | The configuration exists exactly when the bind text parses. Its address and port are the parsed ones, and its name is exactly the `--name` value. |
| `Bind.ParseBindNoPort` | main.go:75-78 | Input without a `:` always succeeds, with the whole input as host and the config's default port. |
| `Bind.ParseBindWithPort` | main.go:76-83 | For `host:port` followed by nothing or by `:...`, the result is what `Atoi` makes of the port piece. The host is kept and the tail is ignored. |
| `Bind.ParseBindRoundTrip` | main.go:76-83 | For a host without `:` and any 64-bit n, `host:n` (with any `:`-tail) parses to exactly `(host, n)`. |
| `Bind.ParseBindRejects` | main.go:79-82 | A port piece that `Atoi` rejects (empty, non-digits, overflow) makes the parse fail with that piece. |
| `Bind.DefaultBindParses` | main.go:70-83 | The default `127.0.0.1:7000` binds 127.0.0.1 on port 7000. |
| `Bind.UncheckedInputsAccepted` | main.go:76-83 | The parse does not check these inputs. `":7000"` gives the empty host and port 7000. `"h:-1"` gives port -1. `"h:7000:x"` gives host `h` and port 7000. |
| `Bind.BadPortRejected` | main.go:79-82 | `"host:notanumber"` and `"host:"` both fail, and the error names the port piece. |
| `Gossip.CreateMemberlist` | main.go:20 | Every call is recorded as one creation attempt with the given config, together with its result. The call either fails (`null`) or yields a fresh handle whose only call so far is its creation. |
| `Gossip.Memberlist.Join` | main.go:41 | Appends exactly one `JoinCall` with the given addresses. The count and the error it returns are unconstrained. |
| `Gossip.Memberlist.Leave` | main.go:50 | Appends exactly one `LeaveCall` with the given timeout. The error it returns is unconstrained. |
| `Gossip.Memberlist.Shutdown` | main.go:54 | Appends exactly one `ShutdownCall`. The error it returns is unconstrained. |
| `Gossip.Joins` | main.go:39-42 | There is one join call per address, and each forwards exactly that one address. |
| `Gossip.HistoryOrder` | main.go:44-54 | In every engine trace, `Create` comes first and only there. `Leave` appears only once the node has left, right after the joins issued before leaving, and always with the 1-second timeout. Every `Shutdown` directly follows that `Leave`. |
| `Gossip.HistoryCounts` | main.go:44-54 | A trace has exactly one `Leave(1s)` and one `Shutdown` once the node has left, and none before. |
| `Gossip.NewGossiper` | main.go:19-26 | It makes exactly one engine creation attempt with the given config. It fails exactly when that attempt failed, and otherwise the node holds the handle the attempt returned. On success the node and its engine handle are fresh. The engine's only call is `Create` with the given config, and no completion signal has been sent yet. |
| `Gossip.Gossiper.constructor` | main.go:24-25 | A new node has an unsignalled channel and an engine trace of just its creation. |
| `Gossip.Gossiper.Join` | main.go:39-42 | Appends exactly `JoinCall([addr])` to the engine trace and changes no signal state. It is allowed before and after leaving. |
| `Gossip.Gossiper.Leave` | main.go:44-55 | Appends exactly `Leave(1s)` and then `Shutdown`, whether or not `Leave` failed. Only after both is the completion signal set. |
| `Gossip.Gossiper.Wait` | main.go:29-31 | Returns only once `Leave` has sent the completion value, and takes it. It leaves the engine trace unchanged. |
| `Gossip.Start` | main.go:67-95 | An invalid `--bind` is fatal, and then `ml.Create` is never called. Otherwise `ml.Create` is called exactly once, with the built configuration. `EngineFatal` is the outcome exactly when that call failed. Otherwise the node holds the fresh handle the call returned, and the node's config has the `--name` value (the host name by default). Its trace is `Create(config)`, followed by `Join([peer])` exactly when `--join` is non-empty. |

## Left out

- The memberlist engine itself is not modelled (creation, gossip, failure
  detection, `Members`, and what `Join`, `Leave` and `Shutdown` do inside it).
  It is foreign code. Its calls are recorded trace events with unconstrained
  results, and creation may fail arbitrarily.
- `Gossip.Gossiper.Leave`: requires that `Leave` has not run yet. The source has
  no such guard. The interrupt goroutine runs `Leave` once per signal, one call
  after another (main.go:60-63). A second call can therefore start only after
  `main` has received the first value, and `main` returns right after `Wait`
  (main.go:98), which ends the process. A second interrupt's `Leave(1s)` and
  `Shutdown` would race with process exit, and its blocked send ends with the
  process. The model does not pretend that a guard exists and does not model
  that race.
- `Gossip.Gossiper.Wait`: blocking is modelled as a precondition (the value has
  been sent and not yet taken), not as a parked goroutine. On the unbuffered
  channel, `Leave`'s send and `Wait`'s receive happen together. The model
  orders them send-then-receive.
- `AttachShutdownHandler` (main.go:57-65) is not modelled. It is OS signal
  delivery plus a goroutine, which is concurrency and I/O.
- `PrintMembers` (main.go:33-37) and every `log` call are not modelled. They
  only produce output, and the log line for a failed `Leave` has no other effect.
- `log.Fatal` is the `ConfigFatal` and `EngineFatal` outcomes of `Gossip.Start`.
  Process exit is not modelled.
- The `flag` package and `os.Hostname` become inputs. Flag values are `Option`
  strings, and the host name is a parameter. The fields of
  `ml.DefaultLocalConfig()` other than name, bind address and port are not
  modelled.
- The duration `time.ParseDuration("1s")` is the constant `LeaveTimeout`
  (10^9 nanoseconds). Its ignored error cannot occur for that literal.
- `Numeric.Atoi`: a failure is `None`. Go's two error kinds, syntax and range,
  are not told apart because `main` treats both as fatal. Go's `int` is taken to
  be 64 bits wide.
- Go strings are byte sequences; here text is a sequence of characters. Splitting
  on the ASCII `:` and checking ASCII digits work the same on both. A `--bind`
  value that is not valid UTF-8 cannot be represented.
