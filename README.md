# Audited headers configuration

This project models Vault's audited-headers configuration
(`vault/audited_headers.go`) as its test file `vault/audited_headers_test.go`
pins it down. The model has two parts:

- **The store** (`AuditedHeaders.AuditedHeadersConfig`). It holds `Headers`, a map
  from header name to its settings. The only setting is `HMAC`: whether the
  header's values are hashed before they reach an audit record. The class also
  holds `stored`, the map decoded from the storage view's audited-headers entry.
  `Add` inserts or overwrites one entry. `Remove` deletes one. Each then writes the
  whole map to the view, so memory and storage agree afterwards (`Persisted`).
- **The filter** (`HeaderFilter.ApplyConfig`). It projects a request's headers
  (name to ordered values) onto the configured names. Values of an HMAC-flagged
  header are hashed one at a time, keeping order and duplicates. Other configured
  headers are copied verbatim. Unconfigured headers are dropped. The hash function
  is a parameter. The filter is a function on values, so it cannot change the
  request or the configuration it is given.

HTTP header names are case-insensitive, but the tests use the same casing on
both sides and say nothing about case. The model matches header names by exact
equality.

The implementation file `vault/audited_headers.go` and the storage view it
writes to are not part of this model. The test file checks a single scenario.
The contracts of the store and of the filter state, for every input, what it
checks on that scenario. With its constant hash, the test does not show that
position `i` holds the hash of value `i`; the contract states it. The two
scenario methods repeat the test's own checks. The lemmas
`UnconfiguredHeadersIgnored`, `RedactionRevealsOnlyHashes`,
`EmptyConfigLogsNothing`, `ApplyAfterAdd` and `ApplyAfterRemove` state further
properties of the filter that no assertion of the test file states as such.

## Model

| member | source | states |
|---|---|---|
| `AuditedHeaders.AuditedHeadersConfig.constructor` | vendor/github.com/hashicorp/vault/vault/audited_headers_test.go:10-17 | A fresh configuration has no headers and no stored entry. |
| `AuditedHeaders.AuditedHeadersConfig.Add` | vendor/github.com/hashicorp/vault/vault/audited_headers_test.go:26-95 | `name` now maps to `HMAC == hmac`. Every other entry is unchanged. The stored entry equals the whole new map, not only the new header. |
| `AuditedHeaders.AuditedHeadersConfig.Remove` | vendor/github.com/hashicorp/vault/vault/audited_headers_test.go:97-155 | `name` is absent and the other entries are unchanged. The stored entry equals the remaining map, so it is the empty map once the last header is removed. |
| `AuditedHeaders.AuditedHeadersConfig.ApplyConfig` | vendor/github.com/hashicorp/vault/vault/audited_headers_test.go:157-182 | A name is in the output exactly when it is configured in `Headers` and present in the request. Flagged values are the element-wise hashes. Unflagged values are copied. |
| `AuditedHeaders.CrudScenario` | vendor/github.com/hashicorp/vault/vault/audited_headers_test.go:19-155 | The add, add, remove, remove sequence passes each intermediate check of the test, in memory and in storage. It ends with both copies empty. |
| `AuditedHeaders.ApplyConfigScenario` | vendor/github.com/hashicorp/vault/vault/audited_headers_test.go:157-195 | The test's configuration and request give `{X-Test-Header: [foo], X-Vault-Header: [hashed, hashed]}`. `Content-Type` is dropped. The request is unchanged afterwards, which holds by value semantics: the filter cannot modify it. |
| `HeaderFilter.HashValues` | vendor/github.com/hashicorp/vault/vault/audited_headers_test.go:167-177 | The output has the input's length. Position `i` holds `hash(values[i])`, so duplicate values give duplicate hashes. |
| `HeaderFilter.Redact` | vendor/github.com/hashicorp/vault/vault/audited_headers_test.go:161-177 | What one configured header contributes keeps the request's number of values. When it is flagged, position `i` holds `hash` of the value at `i`; otherwise the values are copied unchanged. |
| `HeaderFilter.ApplyConfig` | vendor/github.com/hashicorp/vault/vault/audited_headers_test.go:160-182 | Output keys are exactly the configured keys that the request carries. Each output keeps the input's length. Flagged headers hold `hash` of the value at each position. Unflagged headers hold the request's values unchanged. |
| `HeaderFilter.UnconfiguredHeadersIgnored` | vendor/github.com/hashicorp/vault/vault/audited_headers_test.go:165-182 | Two requests that agree on every configured header give the same output. Unconfigured headers such as `Content-Type` have no influence. |
| `HeaderFilter.RedactionRevealsOnlyHashes` | vendor/github.com/hashicorp/vault/vault/audited_headers_test.go:160-182 | Suppose two requests have flagged values that hash alike position by position, and agree on the other configured headers. Then they give the same output, so raw flagged values never reach the record. |
| `HeaderFilter.EmptyConfigLogsNothing` | vendor/github.com/hashicorp/vault/vault/audited_headers_test.go:10-17 | Under the empty configuration a fresh store starts with, the output is empty for every request. |
| `HeaderFilter.ApplyAfterAdd` | vendor/github.com/hashicorp/vault/vault/audited_headers_test.go:62-74 | Configuring one more header changes the output by exactly that header's redacted values, if the request has it. Otherwise the output does not change. |
| `HeaderFilter.ApplyAfterRemove` | vendor/github.com/hashicorp/vault/vault/audited_headers_test.go:98-106 | Removing a header from the configuration removes exactly that header from the output. |

## Left out

- Storage view and JSON: `mockBarrier`, `NewBarrierView`, `view.Get` and `DecodeJSON` are I/O and a foreign library. The `stored` field is the decoded entry, and encoding then decoding is taken to give back the map.
- Storage write failures and rollback: the tests never make a write fail, so `Add` and `Remove` always succeed in the model.
- Validating the header name: `Add` accepts any name, including the empty one. The tests show no validation, and the implementation is not part of this model.
- Loading the configuration from storage at startup, and any snapshot operation: the tests do not exercise them.
- Locking and concurrent access to the configuration.
- Salt and HMAC computation (`salt.NewSalt`, `GetIdentifiedHMAC`), which only the benchmark uses to build its hash function: the hash is an opaque `string -> string` parameter.
- The hash is assumed to be a pure function of its argument. Stateful or nondeterministic hash functions, and the number and order of calls, are not modelled.
- The benchmark at lines 197-226: it measures time and states no behaviour.
- Case-insensitive header-name matching: names are compared exactly.
- Aliasing of the request's value slices: Dafny sequences and maps are values, so non-mutation of the request holds by construction rather than by copying.
