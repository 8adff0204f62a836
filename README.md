# servitor configuration endpoint — Dafny model

servitor reads its runtime configuration from environment variables and serves
it as JSON on `GET /config`. This project models the two parts of it whose
behaviour is exact:

- **the configuration builder** (`buildConfig`, module `Config` in
  `config.dfy`): a fail-fast validator from the process environment to a
  string map. The environment is a `map<string, string>` parameter and a
  variable is absent when it is not in the map's domain. The required
  variables are checked in the order `PAIRING_KEY`, `DB_DATA_SOURCE`,
  `TSM_DB_DATA_SOURCE`, and the first absent one yields the error
  `"<NAME> is required"`. Otherwise the result holds exactly five keys:
  - the three required values, copied verbatim;
  - `LOG_LEVEL`, which defaults to `""`;
  - `DB_DRIVER`, which is always `"postgres"`.

  `BuildConfig` is the imperative method that fills a local map key by key,
  as the Go function does. It is proved equal to `ConfigOutcome`, a
  declarative reference definition built on `FirstAbsent` (the first
  required name missing from the environment).
- **the config handler** (`configHandler`, module `Handlers` in
  `config_handler.dfy`): a class whose `const resp` field holds the bytes
  encoded once at construction. `Handler` maps an abstract request to the
  response a response writer records. The request is its method and whether
  closing its body fails. The response is the status, the headers set and
  the body bytes. `Handler` also returns whether the body close was attempted.

The JSON encoder (`json.Marshal`) is library code. It is the `Encoder`
parameter of `NewConfigHandler`: any total function from a string map to
either bytes or an error message.

Only presence is checked (the flag `os.LookupEnv` returns); no value is
tested for emptiness, so a required variable set to `""` is accepted and
recorded as `""`.

For the 405 path, the headers and body come from `net/http`'s `Error`
helper, modelled as `Handlers.HttpError`. Its documented behaviour is to set
`Content-Type: text/plain; charset=utf-8` and `X-Content-Type-Options: nosniff`,
and to write the message followed by a newline.

## Model

| member | source | states |
|---|---|---|
| `Config.FirstAbsent` | servitor/main.go:75-90 | returns the position of the first name absent from the environment, with every earlier name present; None exactly when all names are present |
| `Config.ConfigOutcome` | servitor/main.go:72-96 | exactly one of map and error is returned; an error exactly when a required variable is absent; `PAIRING_KEY` absent gives "PAIRING_KEY is required" whatever else is set, then `DB_DATA_SOURCE`, then `TSM_DB_DATA_SOURCE` in that order; on success the key set is exactly the five keys, required values are verbatim (including ""), `LOG_LEVEL` is its value or "", `DB_DRIVER` is "postgres" |
| `Config.BuildConfig` | servitor/main.go:72-96 | the step-by-step builder with early returns yields exactly the reference outcome, map and error alike |
| `Config.FirstAbsentDependsOnPresence` | servitor/main.go:75-90 | which error is reported depends only on which checked variables are present, never on their values |
| `Config.LogLevelNeverFails` | servitor/main.go:92 | setting or unsetting `LOG_LEVEL` never changes whether the builder fails or which error it reports |
| `Config.DbDriverIgnored` | servitor/main.go:93 | a `DB_DRIVER` variable in the environment has no effect on the outcome |
| `Config.AllVariablesPresent` | servitor/main_test.go:21-37 | all four variables set gives the five-key map with those values and `DB_DRIVER` "postgres" |
| `Config.LogLevelAbsent` | servitor/main_test.go:38-53 | the test's three required values without `LOG_LEVEL` give the five-key map with those values and `LOG_LEVEL` "" |
| `Handlers.ConfigHandler.constructor` | servitor/api/handlers/config_handler.go:11-13 | the handler holds the given bytes in an immutable field |
| `Handlers.NewConfigHandler` | servitor/api/handlers/config_handler.go:15-22 | when encoding succeeds, a fresh handler whose bytes are the encoding of the map (empty map included) and no error; when it fails, no handler and the error wrapped as "could not marshal config: <cause>" |
| `Handlers.ConfigHandler.Handler` | servitor/api/handlers/config_handler.go:24-39 | the body close is attempted on every call; GET gives 200, `Content-Type: application/json` and exactly the captured bytes; any other method gives 405, a text/plain content type and the body "Method not allowed\n" in place of the captured bytes; none of this depends on whether the close fails |
| `Handlers.HttpError` | servitor/api/handlers/config_handler.go:32 | `http.Error` as documented: the given status, exactly the headers `Content-Type: text/plain; charset=utf-8` and `X-Content-Type-Options: nosniff`, and a body that is the message's bytes followed by a newline byte |
| `Handlers.RepeatedGets` | servitor/api/handlers/config_handler.go:11-38 | the `resp` field is never written after construction and every GET writes it: two GETs on one handler return identical 200 responses carrying the construction-time bytes, whether or not either body close fails (the failing-close GET is the case of servitor/api/handlers/config_handler_test.go:153-180) |

## Left out

- `run` and `main` in servitor/main.go: listener binding on port 3000, the context wait, the 5-second graceful shutdown, fatal logging and process exit. They are lifecycle plumbing around foreign calls.
- servitor/api/server.go (`Start`, `Shutdown`): one goroutine per listener plus the library's connection draining. This is concurrency and library behaviour.
- servitor/api/handlers/handlers.go: registration of the handler on an `http.ServeMux` at `/config`. The 404 for other paths is the router's behaviour.
- The JSON encoding itself: key order, escaping and byte layout belong to `encoding/json`, which stays an opaque parameter.
- Logging through logrus, including the log line written when closing the request body fails. Only the attempt to close is modelled.
- `os.LookupEnv`: replaced by the environment map parameter.
- `Handlers.ConfigHandler.Handler`: a request with a nil body, on which the deferred close would panic, cannot be expressed; the model assumes the non-nil body that a server always supplies.
- Headers a real server adds when it writes the response (`Content-Length`, `Date`): these are library behaviour and the model states only the headers the handler and `http.Error` set.
