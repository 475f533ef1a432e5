# P4Runtime Go client: symbol lookups, multicast builders, pipeline push/pull

A Dafny model of three parts of the `client` package of a P4Runtime control-plane client:

- **Symbol table** (`pkg/client/p4info.go`). `tableId`, `actionProfileId`, `actionId`, `digestId` and `counterId` resolve a P4Info object name to its numeric id. `findCounter` returns the counter object itself, or nil. Each is a first-match linear search over one kind's list. The answer is the sentinel `invalidID` (0), or nil for `findCounter`, when no schema is loaded or the name is absent. The model has these as functions over `Option<P4Info>`, which is the value of the client's `Xp4info` field. Lookups are read-only because they are functions of that value: calling one cannot change `Xp4info`.
- **Multicast-group builders** (`pkg/client/pre.go`). These build the Packet Replication Engine entry for `(mgid, ports)`, wrap it in an INSERT or DELETE update, or build a read template. The replica list gets one replica per port, in input order, numbered from 1, and duplicate ports are kept. `uint32(idx + 1)` is modelled with its 32-bit wrap-around.
- **Forwarding pipeline push/pull** (`pkg/client/fwd_pipe.go`). `SetFwdPipeFromBytes` and `GetFwdPipe` are methods of a `Client` class with `deviceID`, `electionID` and `Xp4info`. The P4Info text decoder is a function parameter. Each RPC's outcome is a parameter. Each request sent is appended to a ghost log. The contracts state when `Xp4info` is replaced and when it is left alone.

Files: `base.dfy` (fixed-width integers, `Option`, `Result`, `Error`), `symbol_table.dfy`, `replication.dfy`, `fwd_pipe.dfy`, `client.dfy`.

Where the design description and the code differ, the model follows the code:

- The design asks for a NotFound result distinct from every id. The code returns 0, so an object whose real id is 0 looks like a missing one (`SymbolTable.InvalidIdIsAmbiguous`).
- The design says writes are refused unless the session is primary. These functions check no mastership and send the update regardless.
- The design says a pull with no config on the device returns an explicit "no config" result. The code returns `(nil, nil)`, modelled as `(None, None)`.

## Model

| member | source | states |
|---|---|---|
| Base.ToUint32 | pkg/client/pre.go:34 | Go's `uint32(n)` keeps `n` unchanged when it is below 2^32, and otherwise gives the 32-bit value congruent to `n` modulo 2^32, which is its low 32 bits |
| SymbolTable.FirstId | pkg/client/p4info.go:13-18 | With no object named `name` the result is 0. Otherwise it is the id of the first object with that name. A non-zero result is the id of some object with exactly that name. |
| SymbolTable.TableId | pkg/client/p4info.go:9-19 | With no schema the result is 0. Otherwise it is the first-match search over the tables only. |
| SymbolTable.ActionProfileId | pkg/client/p4info.go:21-32 | With no schema the result is 0. Otherwise it is the first-match search over the action profiles only. |
| SymbolTable.ActionId | pkg/client/p4info.go:33-43 | With no schema the result is 0. Otherwise it is the first-match search over the actions only. |
| SymbolTable.DigestId | pkg/client/p4info.go:45-55 | With no schema the result is 0. Otherwise it is the first-match search over the digests only. |
| SymbolTable.FirstCounter | pkg/client/p4info.go:61-66 | The result is None exactly when no counter has the name. Otherwise it is the first counter with that name, with every field the model keeps. |
| SymbolTable.FindCounter | pkg/client/p4info.go:57-67 | With no schema the result is nil. A found counter has exactly the name and is the first such counter. If some counter has the name, one is found. |
| SymbolTable.CounterId | pkg/client/p4info.go:69-75 | The result is the id of `findCounter`'s counter, or 0 when it finds none. A non-zero result is the preamble of some counter with that id and name. |
| SymbolTable.LaterDuplicatesIgnored | pkg/client/p4info.go:13-17 | Objects after one that already has the name never change the result, so later duplicates are ignored |
| SymbolTable.EarlierOthersSkipped | pkg/client/p4info.go:13-17 | Objects before the first match that have other names do not change the result |
| SymbolTable.KindsAreSeparate | pkg/client/p4info.go:13 | A name not among the tables resolves to 0 as a table, whatever the other kinds hold |
| SymbolTable.InvalidIdIsAmbiguous | pkg/client/p4info.go:7-18 | A table whose real id is 0 resolves to the same value as a name that is absent |
| Replication.ReplicasFor | pkg/client/pre.go:31-37 | The list has one replica per port. Replica i is on port `ports[i]` with instance `uint32(i+1)`. |
| Replication.BuildMulticastGroupEntry | pkg/client/pre.go:28-37 | The appending loop yields the entry for `mgid` whose replicas are exactly `ReplicasFor(ports)` |
| Replication.PortsPreserved | pkg/client/pre.go:31-37 | The replicas' egress ports, read back in order, are exactly the input ports. Nothing is merged, dropped or reordered. |
| Replication.InstancesOneBased | pkg/client/pre.go:34 | When there are fewer than 2^32 ports, replica i has instance i+1 and all instances differ |
| Replication.DuplicatePortsKept | pkg/client/pre.go:31-37 | The ports `[a, a]` give two replicas on port `a`, with instances 1 and 2 |
| FwdPipe.FromResponse | pkg/client/fwd_pipe.go:97-103 | The P4Info and device config are copied from the response config. The cookie is the response's cookie when one is present and 0 otherwise. |
| FwdPipe.PushedConfigReadsBack | pkg/client/fwd_pipe.go:27-33 | Reading back the config that Set sends gives exactly the record that Set returns |
| FwdPipe.MissingCookieReadsAsZero | pkg/client/fwd_pipe.go:97-103 | A missing cookie and a cookie of 0 give the same returned record |
| P4Client.Client.InsertMulticastGroupEntry | pkg/client/pre.go:7-26 | Exactly one INSERT update is logged, carrying the caller's entry unchanged. The result is WriteUpdate's error. |
| P4Client.Client.InsertMulticastGroup | pkg/client/pre.go:27-56 | Exactly one INSERT update is logged, for group `mgid`. Its replicas are `ReplicasFor(ports)` and their ports are the input ports. The result is WriteUpdate's error. |
| P4Client.Client.DeleteMulticastGroup | pkg/client/pre.go:58-80 | Exactly one DELETE update is logged, for group `mgid` with no replicas. The result is WriteUpdate's error. |
| P4Client.Client.ReadMulticastGroup | pkg/client/pre.go:82-97 | ReadEntitySingle receives a template that carries only `mgid`, and its result is returned unchanged |
| P4Client.Client.SetFwdPipeFromBytes | pkg/client/fwd_pipe.go:22-52 | A decode failure returns the wrapped error, sends no request and leaves `Xp4info` unchanged. Otherwise one request is sent: the client's device id and election id, VERIFY_AND_COMMIT, and the config (schema, binary, cookie). On RPC success `Xp4info` becomes the schema and the config is returned. On RPC failure the RPC's error is returned with no config and `Xp4info` is unchanged. |
| P4Client.Client.GetFwdPipe | pkg/client/fwd_pipe.go:80-111 | One request is sent, with the device id and the response type and no election id. An RPC error comes back wrapped and leaves `Xp4info` unchanged. A response with no config gives (None, None) and leaves `Xp4info` unchanged. Otherwise the record comes from the response config, and `Xp4info` is replaced only when the response holds a P4Info. |

## Left out

- Kind-specific metadata of tables, action profiles, actions and digests is left out. Only their preambles are modelled, because the lookups read nothing else. Counters keep a unit and a size, because `findCounter` returns the counter itself.
- The preamble keeps only `id` and `name`. Its `alias`, `annotations` and `doc` fields are left out, and so are a counter's `index_type_name` and any other field beyond unit and size. So the counter `SymbolTable.FindCounter` returns is whole only within the model.
- SymbolTable.TableId: does not model the panic on a nil list element or a nil preamble. The Go loop reads `table.Preamble.Name` directly (`pkg/client/p4info.go:14`), and text such as `tables { }` decodes to a table without a preamble. The model's preamble is always present, so the lookup returns a value where Go crashes.
- SymbolTable.ActionProfileId: does not model the panic on a nil list element or a nil preamble (`pkg/client/p4info.go:26`), for the same reason as `TableId`.
- SymbolTable.ActionId: does not model the panic on a nil list element or a nil preamble (`pkg/client/p4info.go:38`), for the same reason as `TableId`.
- SymbolTable.DigestId: does not model the panic on a nil list element or a nil preamble (`pkg/client/p4info.go:50`), for the same reason as `TableId`.
- SymbolTable.FindCounter: does not model the panic on a nil counter or a nil preamble (`pkg/client/p4info.go:62`), for the same reason as `TableId`.
- SymbolTable.CounterId: does not model the panic it inherits from `findCounter` on a nil counter or a nil preamble.
- P4Client.Client.InsertMulticastGroupEntry: does not model a nil `mge`. Go accepts a nil pointer and submits an update that wraps nil. The model's entry is always a value.
- P4Client.Client.SetFwdPipeFromBytes: does not model aliasing. On success Go stores one `*P4Info` pointer both in `c.Xp4info` and in the returned `FwdPipeConfig` (`pkg/client/fwd_pipe.go:43-45`), so a caller that edits the returned schema changes the one the client resolves names against. The model has copy semantics: the two are equal values, and a later change to one does not reach the other.
- P4Client.Client.GetFwdPipe: does not model aliasing. Go stores the response's `*P4Info` pointer both in the returned `FwdPipeConfig` and in `c.Xp4info` (`pkg/client/fwd_pipe.go:98`, `pkg/client/fwd_pipe.go:107`), so the two share one object. The model has copy semantics.
- `SetFwdPipe` (`pkg/client/fwd_pipe.go:54-64`) is left out. It only reads two files and delegates to `SetFwdPipeFromBytes`.
- P4Info text parsing (`proto.UnmarshalText`) is left out. It is a foreign library, so it becomes the `decode` parameter of `SetFwdPipeFromBytes`.
- The RPCs are left out as behaviour: SetForwardingPipelineConfig, GetForwardingPipelineConfig, Write (behind `WriteUpdate`) and Read (behind `ReadEntitySingle`). They are network calls, and `WriteUpdate` and `ReadEntitySingle` are defined in files that are not part of this model. Each outcome is a parameter, and each request is recorded in a ghost log of the client.
- Entity kinds other than the multicast group entry are left out. No operation here builds them. So the outcome passed to `ReadEntitySingle`, and the result `P4Client.Client.ReadMulticastGroup` passes through, can only be a multicast group entry, where the real read returns any entity.
- `readEntitySingle`'s zero-or-many-results errors are left out. They live in code that is not part of this model, so any outcome is passed through.
- The Go error messages are left out as strings. An error wrapped by `fmt.Errorf("<context>: %v", err)` is modelled as `Wrapped(context, err)`, not as the formatted text.
- The command-line tool `cmd/p4_push/main.go` is left out. That covers flags, file reads, TLS, dialling, arbitration, the stream-message goroutines, the timeout and the logging of stream messages. It is process setup and network I/O.
- The arbitration and stream session is left out: the mastership state machine, reconnection and the notification dispatcher. It is not implemented in the modelled files.
- Concurrent access to the unsynchronised `Xp4info` field is left out. The model is sequential.
