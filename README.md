# LocalIo: a single-process multi-party I/O harness

This project models `spu::device::LocalIo`, the test harness that simulates
`world_size` parties of a secret-sharing computation inside one process. The
harness owns one symbol table per party, a map from variable names to that
party's share. It has three operations:

- `InFeed(name, view, vtype, owner_rank)` asks the I/O client to split a
  plaintext into shares. It checks that exactly one share came back per party,
  then stores share *i* under `name` in party *i*'s table.
- `OutFeed(name)` gathers every party's value under `name`, in table order.
  It allocates an array typed by the client's type inference and shaped like
  party 0's share. The client's combiner fills that array.
- `GetSymbolTable(idx)` gives party `idx`'s table.

`device_io.dfy` (module `DeviceIo`) holds the collaborators, which live outside
the harness. These are shares, plaintext buffers, the runtime configuration, and
an `IoClient` bound to a world size and a resolved configuration.
The client delegates splitting, type inference and combining to an injected
`SharingScheme` of uninterpreted functions. It also counts the random draws its
splitter has consumed, so that two splits of the same plaintext need not agree. `test_utils.dfy` (module
`TestUtils`) holds the class `LocalIo`, whose field `symbolTables` is a
sequence of tables. Functions beside the class specify the class:
`Fed` gives the tables after a feed, and `Column` with `OutFeedResult` gives
what an outfeed gathers and returns. The lemmas relate feeding and gathering.

The configuration resolver `makeFullRuntimeConfig` is a constructor parameter.
The secret-sharing scheme is a constructor parameter too.

## Model

| member | source | states |
|---|---|---|
| TestUtils.LocalIo.constructor | src/libspu/device/test_utils.h:29-33 | creates `world_size` tables, all empty, so the table count equals the client's world size; the client gets that world size and the resolved configuration, with no random draws consumed yet |
| TestUtils.LocalIo.InFeed | src/libspu/device/test_utils.h:35-42 | succeeds exactly when the client returns one share per table; on failure no table changes; on success the tables become `Fed(old tables, name, shares)`; the table count is unchanged either way; the split consumes one random draw of the client in both cases |
| TestUtils.Fed | src/libspu/device/test_utils.h:39-41 | after a feed, table i maps `name` to share i for every i; each table's keys are its old keys plus `name`; every other name keeps its old value in every table |
| TestUtils.LocalIo.OutFeed | src/libspu/device/test_utils.h:44-58 | reads only: returns nothing exactly when some table lacks `name`; otherwise returns the reconstruction of the N gathered values in table order (`OutFeedResult`); needs at least one table because it reads the first share |
| TestUtils.OutFeedResultMeaning | src/libspu/device/test_utils.h:45-52 | outfeed fails iff some party k lacks `name`; on success it gathers exactly N values, value i is table i's entry for `name`, the result's shape is party 0's share shape, and its type is the client's inference over the gathered shares |
| TestUtils.FeedThenGather | src/libspu/device/test_utils.h:39-49 | after feeding `name`, every table holds it and gathering it yields exactly the fed shares, in order |
| TestUtils.FeedKeepsOtherColumns | src/libspu/device/test_utils.h:39-41 | feeding `name` does not add or remove any other name in any table; another name is present in every table after the feed iff it was before, and then its column of values is unchanged |
| TestUtils.FeedOverwrites | src/libspu/device/test_utils.h:39-41 | a second feed under the same name replaces the first in every table |
| TestUtils.FeedsCommute | src/libspu/device/test_utils.h:39-41 | feeds under two different names give the same tables in either order |
| TestUtils.OutFeedAfterFeed | src/libspu/device/test_utils.h:37-55 | outfeeding a name right after a successful feed of it passes the combiner exactly the shares the client produced, so the result is their reconstruction, shaped like the first share |
| TestUtils.LocalIo.GetSymbolTable | src/libspu/device/test_utils.h:60 | returns table `idx`; the index must be in range because the source does not check it |

## Left out

- Secret-sharing internals (`makeShares`, `getPtType`, `combineShares`): the client's internals are not modelled. The client is a world size, a resolved configuration, a count of random draws and an uninterpreted `SharingScheme`. The scheme is a constructor argument, whereas the source's client selects its scheme from the configuration.
- Randomness of `makeShares`: each split is a fixed function of the client's draw count and its inputs. The model does not state that shares are random or reveal nothing about the plaintext; it only keeps two splits, taken at different draws, from being provably equal.
- Plaintext round trip (feed then outfeed gives back the plaintext): this holds only if the scheme's split and combine are inverses, which this model does not assume. `OutFeedAfterFeed` states the part the harness controls: the combiner gets exactly the shares that were fed.
- `makeFullRuntimeConfig` and `RuntimeConfig` contents: the resolver is a function parameter of the constructor, and configurations are opaque.
- Memory layout of `NdArrayRef` and `PtBufferView` (data pointers, strides, element sizes): a buffer is its type code, shape and element sequence. The `makePtType` conversion is folded into the type code.
- Error kinds: the failed count check in `InFeed` is a `false` result. A name missing from a table in `OutFeed` is a `None` result. The symbol table's own error and its message are not part of this model. Type disagreement between shares is left to the unseen client.
- TestUtils.LocalIo.GetSymbolTable: returns the table's value, not a pointer into the harness. Callers cannot modify the harness's tables through the result, because tables are map values in a sequence.
- The `<future>` include: nothing in the harness is concurrent.
