# mod_authn_jwt: configuration resolution and request participation

mod_authn_jwt is a lighttpd plugin meant to authenticate requests that carry a
JSON Web Token. The code in `mod_authn_jwt.c` is still at the stage of the
lighttpd plugin skeleton. It declares one directive, `authn_jwt.array`, a list
of path suffixes. It keeps a global default for that directive and resolves the
value for each request from the conditional configuration scopes that hold. Its
URI handler takes part in a request only when the request is not already
claimed by another module, has a non-blank path, and its path ends with one of
the configured suffixes. It then answers 403 Forbidden and finishes the request.
No bearer-token parsing, key loading, JWT verification or `WWW-Authenticate`
challenge exists in this code, so none is modelled. The integration tests
(`integration-test/client/tests/test_jwt.py`) expect a 401 answer with a
`WWW-Authenticate` header. This code answers 403, and the model follows the
code.

The model has two modules:

- `Lighttpd` (`lighttpd_base.dfy`) holds what the plugin consumes from the server:
  - the handler result codes;
  - the layout of the configuration value list `cvlist`, with its well-formedness predicate `TableWellFormed`;
  - the `int` to `uint32_t` cast;
  - stand-ins for `array_match_value_suffix`, `buffer_is_blank` and `config_check_cond`;
  - a `Request` class with the request fields the handler reads and writes.
- `AuthnJwt` (`mod_authn_jwt.dfy`) holds the plugin:
  - `plugin_config` as the value type `PluginConfig`, which C copies by struct assignment;
  - the merge functions, and the do-while merge loop as the method `MergeConfig`;
  - the specification functions `MergedRun`, `Resolved` and `Seeded`;
  - the lemmas about those functions;
  - the class `PluginData` with fields `defaults`, `conf`, `cvlist` and `nconfig`. Its methods `PatchConfig`, `SetDefaults` and `UriHandler` update those fields, and the request's status, in place.

The layout of `cvlist` is as the code reads it. Entries `0..nconfig-1` are
headers. A header's `k_id` is a condition id. Its `v.u2[0]` is the offset of its
run of values and its `v.u2[1]` is the number of values. A run is read until an
entry whose `k_id` is -1. The C union `v` is flattened into the fields `a`,
`offset` and `count`, and a NULL pointer is `None`.

## Model

| member | source | states |
|---|---|---|
| `Lighttpd.ToUint32` | mod_authn_jwt.c:76 | the `(uint32_t)` cast of a condition id is reduction modulo 2^32: identity on 0..2^32-1, and negative ids wrap to the top of the range |
| `Lighttpd.NextSentinel` | mod_authn_jwt.c:69 | the index where the merge loop stops is the first entry at or after the given one whose `k_id` is -1 |
| `Lighttpd.ArrayMatchValueSuffix` | mod_authn_jwt.c:116-117 | stand-in for the suffix lookup: it gives the first element that ends the path. It gives none exactly when no element ends the path |
| `AuthnJwt.MergeConfigCpv` | mod_authn_jwt.c:56-64 | a value with key id 0 (`authn_jwt.array`) sets `match` to its array pointer. Any other key id leaves the config unchanged |
| `AuthnJwt.MergeValuesLastWins` | mod_authn_jwt.c:56-70 | merging a sequence of values is last-write-wins. The last key-0 value decides `match`. A sequence with no key-0 value leaves the config unchanged |
| `AuthnJwt.MergeConfig` | mod_authn_jwt.c:66-70 | the do-while walk from `start` merges exactly the entries from `start` up to the first later sentinel. The first entry is merged unconditionally. The resulting `match` is the run's last key-0 value, or the input's when the run has none |
| `AuthnJwt.MergeValuesShift` | mod_authn_jwt.c:61-62 | a leading value whose key id is not 0 has no effect on the merge of a sequence |
| `AuthnJwt.MergedRunFromSentinel` | mod_authn_jwt.c:67-69 | a walk that starts on a sentinel does not stop there. When the entry after that sentinel is not itself a sentinel, the walk merges the following run, exactly as a walk started one entry later would |
| `AuthnJwt.ResolvedSkipsSilentSlot` | mod_authn_jwt.c:75-78 | a header slot whose condition does not hold, or whose run sets nothing, does not change the resolved config |
| `AuthnJwt.ResolvedKeepsDefaults` | mod_authn_jwt.c:72-79 | if no slot whose condition holds sets `match`, the resolved config is exactly the defaults |
| `AuthnJwt.ResolvedNoActiveSlot` | mod_authn_jwt.c:73-78 | if no condition of slots 1..nconfig-1 holds, the resolved config is exactly the defaults |
| `AuthnJwt.ResolvedLastActiveWins` | mod_authn_jwt.c:75-78 | later scopes override earlier ones. Take a slot whose condition holds and whose run sets `match`, with no later holding slot setting it. The request's `match` is then that run's last value, whatever the defaults and earlier slots hold |
| `AuthnJwt.SeededMatch` | mod_authn_jwt.c:96-100 | seeding uses the global run only when nconfig > 0, the global count is non-zero and the run's first entry is not the sentinel. The defaults then get the global run's last `match` value. Otherwise the defaults stay as they were |
| `AuthnJwt.PluginData.constructor` | mod_authn_jwt.c:50-52 | fresh plugin data is zero-initialised. Both configs have `match` NULL and the value list is empty |
| `AuthnJwt.PluginData.PatchConfig` | mod_authn_jwt.c:72-79 | `conf` becomes the defaults folded with the runs of the slots 1..nconfig-1 whose condition holds, in increasing slot order. With no such slot `conf` equals `defaults`. Only `conf` is written |
| `AuthnJwt.PluginData.SetDefaults` | mod_authn_jwt.c:91-102 | if value initialisation fails, it returns HANDLER_ERROR and changes nothing. Otherwise it installs the value list, seeds `defaults` from the global scope, and returns HANDLER_GO_ON. `conf` is left untouched |
| `AuthnJwt.PluginData.UriHandler` | mod_authn_jwt.c:105-125 | the handler finishes exactly when three things hold: no handler module is set, the path is not blank, and the resolved `match` has a value that ends the path. It then sets status 403. In every other case it returns HANDLER_GO_ON with the status untouched. `conf` is recomputed only after both early checks pass |
| `AuthnJwt.PatchConfigIdempotent` | mod_authn_jwt.c:72-79 | resolving the same request twice yields the same `conf`, because each resolution starts again from `defaults` |

## Left out

- Bearer-token extraction, key-file loading, JWT decoding and verification, and the `WWW-Authenticate` challenge are not in `mod_authn_jwt.c`. The handler's business logic is a placeholder that answers 403.
- The integration tests in `integration-test/client/tests/test_jwt.py` expect 401 and 200 answers from a complete JWT check. No property is drawn from them, because the code they exercise is not part of this model.
- `mod_authn_jwt_plugin_init` (mod_authn_jwt.c:132-141) only fills in callback pointers for the server's plugin loader.
- The `handler_ctx` block (mod_authn_jwt.c:31-46) is compiled out by `#if 0`.
- The keys table `cpk` (mod_authn_jwt.c:82-89) is reduced to its one fact that matters here: key id 0 is `authn_jwt.array` (the constant `KeyMatchArray`).
- `config_plugin_values_init` belongs to lighttpd's configuration engine and is not part of this model. Its outcome is a parameter of `SetDefaults`: `None` for failure, otherwise the value list and slot count. The layout it guarantees is the precondition `TableWellFormed`. Each run the code walks starts inside the list and is followed by a sentinel.
- PluginData.SetDefaults: on failure of value initialisation, the model leaves the plugin data unchanged. Whatever `config_plugin_values_init` may write before it fails is not modelled.
- `config_check_cond` is modelled as membership of the condition id in `Request.conditions`, the set of condition ids that hold for the request. Its evaluation and caching of conditions belong to the configuration engine.
- `buffer_is_blank` is modelled as "the path has no characters". `array_match_value_suffix` is modelled as a suffix search over a Dafny `string`, a sequence of `char`s. It agrees with the `memcmp` comparison when each byte of the path and of the configured values is read as one `char`; paths that are not valid UTF-8 are represented that way too. The element pointer it returns is modelled by its index.
- `v.u2[0]` and `v.u2[1]` are 32-bit unsigned in C and unbounded naturals here. Array contents are sequences of strings, and pointer identity of arrays is not modelled.
- `mod_authn_jwt_merge_config` writes through a `plugin_config *`. `MergeConfig` takes the config and returns the merged one instead, and its callers store the result in `conf` or `defaults`.
- `patch_config` has no guard against a conditional slot whose run begins with the sentinel. In that case the do-while would merge the following run too (`MergedRunFromSentinel`). The model requires every conditional slot's run to be terminated, and no more.
