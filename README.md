# discoverer reconciler, modelled in Dafny

This project models the reconciliation core of the `discoverer` sidecar. The sidecar keeps an nginx reverse proxy's configuration in step with a directory of JSON service-registration files. The core is `Manager` in `internal/service/manager.go` and the record types in `internal/service/model.go`. One reconciliation pass does four things:

1. It lists the `*.json` files of the services directory.
2. It reads and decodes each file, keeps the valid records in listing order, and replaces the service set with them wholesale.
3. It renders the fixed nginx template (one `upstream` block and one pair of `location` blocks per service) into the configuration file.
4. It signals nginx to reload: read the PID file, parse the PID, find the process, send SIGHUP.

Modules, one per concern:

- `ServiceModel` (`service_model.dfy`): the `Service` record, the `ServiceConfig` wrapper and the JSON key of each field.
- `GoFmt` (`go_fmt.dfy`): how Go prints an `int` in decimal (the template's `{{.Port}}`), and how `Sscanf(..., "%d", ...)` reads a leading decimal integer (the PID).
- `NginxConfig` (`nginx_config.dfy`): the expansion of the one nginx template as string concatenation. `Expand` is one `{{range .Services}}` and `Render` is the whole template.
- `Reconcile` (`reconcile.dfy`): the pure part of the pass. It holds the validity filter, the records a pass keeps (`Accepted`), the error values, the reload stages (`Reload`), and the effect of a write on the configuration file.
- `Manager` (`manager.dfy`): the `Manager` class. Its `services` field is reassigned by `LoadServices`. Two ghost fields record the pass's effects outside the process: `configFile` is what is on disk at the configuration path, and `reloadSignals` lists the PIDs that received SIGHUP.

All I/O is given to a pass as a `World` value holding these outcomes:

- the listing: an error, or the ordered outcome of each file (`ReadFailed`, `ParseFailed`, or `Parsed(service)`);
- the config write: `CreateFailed`, `ExecuteFailed(written)` or `Written`;
- the PID file's content, or `None` when reading it fails;
- whether the process was found, and whether the signal was delivered.

The model follows the code in three places where a reader might expect otherwise:

- **Validity.** One would expect a port to be positive and a path to start with `/`, since the path is used as an nginx `location` prefix. The code (manager.go:115) only rejects port 0, so negative ports pass, and it checks only that the path is non-empty, never that it starts with `/`. `IsValid` follows the code, and `ValidityIsLax` shows both gaps.
- **Failed writes.** One would expect a write that fails before any bytes are written to leave the previous configuration in place. In the code, `os.Create` (manager.go:144) truncates the file before the template runs (manager.go:151). So only a failure to create the file leaves the old content; an execution failure after zero characters leaves an empty file (`ConfigFileAfterWrite`, `TruncateIsPrefix`).
- **Error wrapping.** With no matched file, the code returns the generation error unwrapped (manager.go:94). With at least one file it wraps it as "failed to generate nginx config" (manager.go:129). `PassError` and `PassErrorCases` keep this difference.

## Model

| member | source | states |
|---|---|---|
| `ServiceModel.JsonKey` | internal/service/model.go:4-8 | Every field's JSON key is a non-empty lower-case ASCII word. |
| `ServiceModel.JsonKeyInjective` | internal/service/model.go:3-9 | No two of the five fields share a key, so each key of a record object selects exactly one field. |
| `GoFmt.NatToDecimal` | internal/service/manager.go:41 | A non-negative port prints as a non-empty run of decimal digits with no leading zero (except `0` itself). |
| `GoFmt.IntToDecimal` | internal/service/manager.go:41 | A port prints with a leading `-` exactly when it is negative, followed by digits only. |
| `GoFmt.NatToDecimalValue` | internal/service/manager.go:41 | Reading back the printed digits gives the number that was printed. |
| `GoFmt.LeadingDigits` | internal/service/manager.go:166 | The scanner takes the longest run of digits at the front: all of it digits, and the next character, if any, is not a digit. |
| `GoFmt.ScanInt` | internal/service/manager.go:165-169 | A PID is parsed only if the text, after one optional sign, starts with a digit. The value fits in a 64-bit `int`, and a negative value needs a leading `-`. |
| `GoFmt.ScanSignedDigits` | internal/service/manager.go:166 | An optional `+` or `-`, any non-empty run of digits (leading zeros allowed) and a tail not starting with a digit scan as the signed value of the digits when it fits in a 64-bit `int`, and fail when it does not. With `ScanInt`'s own contract this fixes the result on every input. |
| `GoFmt.ScanLeadingZeros` | internal/service/manager.go:166 | `0042` followed by a newline scans as 42. |
| `GoFmt.ScanSignAndNewline` | internal/service/manager.go:166-169 | `+5` scans as 5, and a text starting with a newline does not scan. |
| `GoFmt.ScanOverflow` | internal/service/manager.go:166-169 | The decimal numeral one past the largest 64-bit `int` does not scan. |
| `GoFmt.ScanPrintedInt` | internal/service/manager.go:166 | Any in-range `int` printed in decimal and followed by a non-digit (such as a newline) scans back to itself. |
| `NginxConfig.UpstreamBlock` | internal/service/manager.go:39-43 | One service's upstream block, right after its line break and indentation, opens the group named after the service (`upstream N {`) and gives it, on the next line, the one server `server H:P;`. |
| `NginxConfig.ProxyLocation` | internal/service/manager.go:54-60 | The proxy location begins with the sub-path header `location X/ {`, whose first directive is `proxy_pass http://N/;` to the group named after the service. |
| `NginxConfig.LocationBlock` | internal/service/manager.go:49-61 | One service's location pair holds the redirect location of the bare path (`location X {` rewriting `^X$` to `X/` permanently) and the sub-path location `location X/ {` proxying to the group named after the service. |
| `NginxConfig.Expand` | internal/service/manager.go:39-61 | A range over no service emits nothing, and over one service emits that service's body once. |
| `NginxConfig.Render` | internal/service/manager.go:16-64 | An empty service set renders only the fixed frame, with no upstream and no location block. |
| `NginxConfig.ExpandAppend` | internal/service/manager.go:39-43 | A range over two consecutive parts of the service sequence is the range over the first part followed by the range over the second. |
| `NginxConfig.ExpandAt` | internal/service/manager.go:49-61 | A range's output holds exactly one copy of the body for the i-th service, between the copies for the services before and after it. |
| `NginxConfig.RenderBlocksInOrder` | internal/service/manager.go:16-64 | In the rendered configuration, the i-th service contributes its `upstream` block at position i of the first range and its location pair at position i of the second range. |
| `NginxConfig.RenderContainsBlocks` | internal/service/manager.go:16-64 | For every service of the set, the rendered configuration holds that service's whole upstream block and its whole location pair. |
| `NginxConfig.RoutesOfBlocks` | internal/service/manager.go:39-61 | A text holding a service's upstream block and location pair holds `upstream N {` followed by `server H:P;`, the redirect location of `X`, and `location X/ {` followed by `proxy_pass http://N/;`. |
| `NginxConfig.RenderRoutesEveryService` | internal/service/manager.go:16-64 | For every service of the set, the rendered configuration holds: the group named after it with its host and port as server (`upstream N {` then `server H:P;`); the permanent redirect from `X` to `X/`; and `location X/ {` whose first directive is `proxy_pass http://N/;`. |
| `Reconcile.IsValid` | internal/service/manager.go:115 | A record passes the filter iff none of its five fields holds its zero value (empty string, or port 0). |
| `Reconcile.ValidityIsLax` | internal/service/manager.go:115 | A negative port and a path without a leading `/` pass the filter, and port 0 is rejected. |
| `Reconcile.Accepted` | internal/service/manager.go:97-122 | A pass keeps at most one record per file, and every record it keeps is valid. |
| `Reconcile.AcceptedAppend` | internal/service/manager.go:98-122 | A failing file never aborts the pass: the records kept from two runs of files are those of the first run followed by those of the second. |
| `Reconcile.AcceptedMembers` | internal/service/manager.go:98-122 | A record is in the new set iff it is valid and some listed file decoded to it. |
| `Reconcile.AcceptedInOrder` | internal/service/manager.go:97-124 | The new set is exactly the records of the accepted files in listing order. Its k-th record comes from the k-th accepted file, the file positions increase, and every other file was unreadable, undecodable or invalid. |
| `Reconcile.NoValidFileKeepsNothing` | internal/service/manager.go:97-124 | With no valid file (including no file at all), the new set is empty. |
| `Reconcile.NoValidFileRendersFrame` | internal/service/manager.go:92-95 | With no valid file (including no file at all), the rendered configuration is the bare frame. |
| `Reconcile.TruncateIsPrefix` | internal/service/manager.go:144-153 | After a write that stops early, the file holds a prefix of the rendering no longer than what was written. It is empty when nothing was written, and the full text when nothing was cut. |
| `Reconcile.ConfigFileAfterWrite` | internal/service/manager.go:144-153 | A create failure keeps the previous file content, a failed execution leaves the rendering cut after the characters written, and a full write leaves exactly the rendering. |
| `Reconcile.Reload` | internal/service/manager.go:158-188 | A reload succeeds only if the PID file was read, its content scanned to the PID returned, the process found and the signal delivered. A failure is one of the four reload errors. |
| `Reconcile.GenerateError` | internal/service/manager.go:136-156 | Generation succeeds iff the whole configuration was written and the reload succeeded. A create failure and an execution failure are reported as such, and a failed reload after a complete write returns the reload's own error unwrapped. |
| `Reconcile.PassError` | internal/service/manager.go:82-134 | A pass succeeds iff the directory was listed and generation succeeded. A wrapped error always wraps the generation error. |
| `Reconcile.ReloadStages` | internal/service/manager.go:158-188 | Reload succeeds iff the PID file was read, its content parsed, the process found and SIGHUP delivered, and it then signals the parsed PID. Otherwise the first failing stage alone names the error. |
| `Reconcile.ReloadSignalsWrittenPid` | internal/service/manager.go:160-180 | A PID file holding a positive PID and a newline, with the process found and the signal delivered, reloads the process with that PID. |
| `Reconcile.PassErrorCases` | internal/service/manager.go:82-134 | A pass succeeds iff listing, writing and reloading all succeed. A listing error is reported as such. A generation error is returned bare when no file matched and wrapped otherwise. |
| `Manager.Manager.constructor` | internal/service/manager.go:73-80 | A new manager holds the three paths and an empty service set, and has neither written the configuration nor signalled nginx. |
| `Manager.Manager.LoadServices` | internal/service/manager.go:82-134 | A listing error changes nothing. Otherwise the set becomes exactly the accepted records of this pass, whatever happened before and whatever fails afterwards. The configuration file then holds the rendering of that set as far as the write got, a SIGHUP is recorded only if the write completed and the reload succeeded, and the returned error is `PassError`. |
| `Manager.Manager.GenerateConfig` | internal/service/manager.go:136-156 | Renders the current set into the file and reloads only after a complete write. The set is left unchanged, and the error is that of create, execute or reload, unwrapped. |
| `Manager.Manager.WriteConfigFile` | internal/service/manager.go:144-153 | The file's new state is the effect of creating it and executing the template on the current set (`ConfigFileAfter`). The write reports no error iff it completed; otherwise the error names the step that failed. |
| `Manager.Manager.ReloadNginx` | internal/service/manager.go:158-188 | The error is that of the first failing stage. A PID is added to the delivered signals exactly when every stage succeeded, and it is the parsed PID. |
| `Manager.Manager.GetServices` | internal/service/manager.go:190-192 | Returns the current service set, in order. |

## Left out

- JSON decoding and whitespace trimming (manager.go:106-112) are not modelled. Each file's outcome is given as read failure, parse failure, or a decoded `Service`. So `encoding/json`'s case-insensitive key matching and its range check on `port` are not modelled either.
- `filepath.Glob` is given as an outcome: an error, or the ordered file outcomes. The model takes that order as given; the library's own ordering of matches is not part of this model.
- The `text/template` engine and the template-parse failure (manager.go:138-141) are left out, because the template is a constant. Only this template's expansion is modelled.
- Manager.Manager.WriteConfigFile: a partial write is modelled as a cut after a number of characters. The chunking of the template engine's writes to the file is not modelled, and neither is the error from `f.Close`, which the code ignores.
- GoFmt.ScanInt: skips no leading white space. `Sscanf` skips every leading white space except a newline before `%d`: space, tab, vertical tab, form feed, a carriage return not followed by a newline, and Unicode spaces. On those `ScanInt` fails where `Sscanf` would go on to the number. A leading newline makes both fail.
- ServiceModel.Service: `port` is an unbounded integer. The 64-bit width of Go's `int` only matters to the JSON decoder, which is not modelled.
- `os.FindProcess`, `process.Signal(SIGHUP)` and the 100 ms sleep after the signal (manager.go:185) are given as success/failure outcomes or left out. All logging is left out.
- Manager.Manager.GetServices: returns a value. The Go method returns the manager's own slice, so a caller could alias it; that is not modelled. The nil-versus-empty slice distinction is not modelled either; both render the same.
- `cmd/discoverer/main.go` is not part of this model: environment defaults, directory creation, the readiness poll, the fsnotify watch loop and signal handling are I/O and concurrency plumbing. `cmd/test-service/main.go`, an HTTP echo server, is left out too.
