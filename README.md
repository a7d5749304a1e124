# Opera bridge: SFC shard cache and fMint account valuation

This project models two pieces of the Opera-node bridge of the Fantom GraphQL API server. Both are written in Go.

- **The SFC shard cache** (`sfcShards`) caches the address of the SFC "constants" shard. It loads that address with a locator call (`constsAddress()`) on the SFC contract. The cached address gets a hard-coded one-hour expiry, pushed forward before each load. One helper reads a named protocol constant: it sends the constant's 4-byte selector and decodes the reply as an unsigned big-endian integer. Twelve named accessors (minimum self-stake, commission rates, lockup durations, …) each fix one selector.
- **The fMint account valuation** reads:
  - token balances from the minter contract, either the collateral or the debt ledger depending on the token type;
  - token prices from the price oracle.

  The token value is the exact product of price and balance. The account snapshot reads the token list, then the minter's joined collateral and debt values (`CollateralValueOf`, `DebtValueOf`), in that fixed order. A failing call aborts the operation with its error. A nil balance or price with no error reads as a "soft zero". A nil joined value in the account totals is dereferenced and panics.

Files:
- `go.dfy`: Go's conventions as datatypes. These are errors, `(value, error)` pairs (`Ret`), panics (`Exit`) and traces of the external calls an operation issues (`Traced`).
- `abi.dfy`: bytes, the big-endian unsigned decode used by `big.Int.SetBytes` and its encoder, and go-ethereum's `Address.SetBytes`.
- `sfc.dfy`: the `SfcShards` class, the selector table and the constant reads.
- `fmint.dfy`: the valuation functions.

How the outside world is represented:
- **The node.** `ethclient.CallContract` becomes a function `Node` from a call message to a reply or an error. It is the node's answer at the instant of the call. Every operation returns the calls it issued, in order. That is how "no call is made" and "the call goes to the SFC contract" are stated.
- **The clock.** Time is a parameter: a `nat` counting nanoseconds since Go's zero `time.Time`. A freshly built cache therefore starts stale. `assertShards` reads the clock twice, once for the check and once for the new expiry. It gets two parameters, `now` and `stamp`.
- **The fMint contract bindings.** They and the token registry are the fields of a `Chain` value. A binding that returns `(*big.Int, error)` is a `Reply`: a value, a nil value with no error, or an error.
- **Panics.** A Go panic is modelled as an explicit `Panic` outcome. It occurs in two places:
  - slicing `data[12:]` of a locator reply shorter than 12 bytes;
  - dereferencing a nil joined value in `fMintAccountValue`.

The model follows the code as written on these points:
- The one-hour lifetime is a literal in the code (sfc_shards.go:84), not a configured TTL.
- The expiry moves before the load (sfc_shards.go:84-85). A failed load is therefore not retried until the new expiry passes.
- `constantBySignature` sends the selector to the SFC contract itself (sfc_shards.go:119), not to the cached constants shard. No accessor calls `sfcConstants`.
- No length check is made on a reply:
  - a constant reply of any length is decoded whole;
  - a locator reply of 12 to 31 bytes is stored with `SetBytes`. An input shorter than 20 bytes keeps the old address's leading bytes;
  - a locator reply shorter than 12 bytes panics instead of producing a decode error.

## Model

| member | source | states |
|---|---|---|
| `Abi.BeUint` | internal/repository/rpc/sfc_shards.go:126 | the big-endian value of n bytes is below 256^n; the empty reply is 0 |
| `Abi.BeBytes` | internal/repository/rpc/sfc_shards.go:126 | encoding any v below 256^n as n bytes decodes back to v (the uint256 round trip for n = 32) |
| `Abi.BeBytesOfBeUint` | internal/repository/rpc/sfc_shards.go:126 | re-encoding the decoded value at the input's width gives the input back, so the decode is injective per width |
| `Abi.BeUintLeadingZeros` | internal/repository/rpc/sfc_shards.go:126 | leading zero bytes do not change the decoded value |
| `Abi.SetBytes` | internal/repository/rpc/sfc_shards.go:101 | address byte i is byte i+len-20 of the input when that exists (right-aligned, last 20 bytes kept), otherwise the old byte |
| `Abi.AddressWord` | internal/repository/rpc/sfc_shards.go:100 | an address as a 32-byte ABI word is 12 zero bytes followed by the address |
| `Abi.SetBytesOfWordTail` | internal/repository/rpc/sfc_shards.go:100-101 | storing bytes 12..31 of a 32-byte reply yields exactly those 20 bytes, whatever was cached before |
| `Abi.AddressRoundTrip` | internal/repository/rpc/sfc_shards.go:100-101 | decoding the tail of 12 zero bytes followed by address A yields A |
| `Sfc.Selector` | internal/repository/rpc/sfc_shards.go:39-73 | each named constant has its literal 4-byte selector |
| `Sfc.SelectorsDistinct` | internal/repository/rpc/sfc_shards.go:36-73 | all thirteen selectors are 4 bytes and pairwise distinct; none of the twelve is the locator's |
| `Sfc.AfterLoad` | internal/repository/rpc/sfc_shards.go:96-101 | a call error keeps the cached address; a reply shorter than 12 bytes, and only that, panics; any reply of 12 or more bytes is stored right-aligned (address byte i is reply byte i+len-20 where that is at index 12 or later, otherwise the old byte); a 32-byte reply stores bytes 12..31 |
| `Sfc.DecodeUint` | internal/repository/rpc/sfc_shards.go:122-126 | a call error is returned and no value; a reply of any length decodes to the unique value below 256^len whose len-byte big-endian encoding is the reply; 0 for the empty reply |
| `Sfc.DecodeUintWord` | internal/repository/rpc/sfc_shards.go:126 | the 32-byte word of v, with or without extra leading zeros, decodes to v |
| `Sfc.SfcShards.LocatorCall` | internal/repository/rpc/sfc_shards.go:91-95 | the locator call goes from the zero address to the SFC contract with the `constsAddress()` selector as payload |
| `Sfc.SfcShards.constructor` | internal/repository/rpc/sfc_shards.go:26-33 | a new cache has a zero expiry and the zero address |
| `Sfc.SfcShards.LoadConstantsAddress` | internal/repository/rpc/sfc_shards.go:90-102 | exactly one locator call; the cached address becomes what AfterLoad gives, and stays unchanged on an error or a panic |
| `Sfc.SfcShards.AssertShards` | internal/repository/rpc/sfc_shards.go:77-86 | expiry strictly after now: no call and no field changes; otherwise the expiry becomes stamp + 1 hour whether or not the load succeeds, then one locator call |
| `Sfc.SfcShards.SfcConstants` | internal/repository/rpc/sfc_shards.go:105-113 | returns exactly the cached address as it stands after AssertShards, or panics, leaving the cached address unchanged; the SFC address is a constant it cannot change |
| `Sfc.SfcShards.ConstantBySignature` | internal/repository/rpc/sfc_shards.go:116-127 | one call from the zero address to the SFC contract with the selector as the whole payload; the result is DecodeUint of that reply: the call's error, or the unique value whose big-endian encoding is the whole reply |
| `Sfc.SfcShards.ConstantValue` | internal/repository/rpc/sfc_shards.go:129-187 | each named accessor makes one call from the zero address to the SFC contract with its own 4-byte selector, never the locator's, and returns the decoded reply |
| `Sfc.ConstantWordRoundTrip` | internal/repository/rpc/sfc_shards.go:129-187 | a constant whose getter answers with the 32-byte word of v reads as exactly v |
| `Sfc.RefreshThenHit` | internal/repository/rpc/sfc_shards.go:77-86 | after a refresh at stamp, a request before stamp + 1 hour makes no call and returns the refreshed address |
| `Sfc.StaleFallback` | internal/repository/rpc/sfc_shards.go:90-98 | after a 32-byte locator reply was stored, a later failing refresh keeps and returns that address |
| `FMint.Soft` | internal/repository/rpc/defi_fmint_account.go:72-77 | a nil value reads as zero with the accompanying error; an error is surfaced exactly when the call failed |
| `FMint.TokenBalance` | internal/repository/rpc/defi_fmint_account.go:53-78 | a contract error gives zero plus that error; Collateral queries only CollateralBalance, Debt only DebtBalance, any other type gives zero with no error; an error always comes with zero |
| `FMint.TokenPrice` | internal/repository/rpc/defi_fmint_account.go:102-123 | an oracle-connection or GetPrice error gives zero plus that error; a nil price gives zero with no error; otherwise the price |
| `FMint.TokenValue` | internal/repository/rpc/defi_fmint_account.go:81-99 | the error is the first non-nil one, balance before price, and comes with zero; a balance error skips the price calls; otherwise exactly price × balance |
| `FMint.AccountValue` | internal/repository/rpc/defi_fmint_account.go:125-149 | calls run in the order contract, collateral, debt and stop at the first error, which comes with two zeros; a collateral error ends the trace after the collateral call; a nil value with no error panics; two answered values are returned as the totals with no error |
| `FMint.Account` | internal/repository/rpc/defi_fmint_account.go:26-50 | a token-list error returns no account after one call; success is all-or-nothing: Address = owner, DebtList = CollateralList = the token list, values taken verbatim from AccountValue; an error-free AccountValue gives an error-free snapshot |
| `FMint.TokenValueOfReplies` | internal/repository/rpc/defi_fmint_account.go:81-99 | when every collaborator answers, the value is the oracle price times the ledger balance, with no error |
| `FMint.TokenValueSoftZero` | internal/repository/rpc/defi_fmint_account.go:64-98 | a nil balance, a nil price or an unknown token type gives a zero value |
| `FMint.AccountOfReplies` | internal/repository/rpc/defi_fmint_account.go:26-50 | when every collaborator answers, the snapshot is the owner, the list twice and the two joined values, after exactly four calls |

## Left out

- The `sync.Mutex` in `sfcConstants` is not modelled. Its point is concurrency: the model is sequential and treats each `sfcConstants` call as atomic. The single-flight behaviour across concurrent callers is therefore not stated.
- `time.Now()` is not modelled. It is replaced by the parameters `now` and `stamp`. No ordering between the two readings is assumed.
- `ethclient.CallContract`, `context` and the abigen contract bindings are not modelled. They are network or foreign calls, and their answers are inputs. The block number (`nil`, meaning the latest block) is not modelled.
- The internals of `DefiTokenList` are not modelled. It is an external registry, whose answer is an input.
- A binding reply carrying both a non-nil value and a non-nil error is not representable. abigen's generated bindings return a nil value whenever they return an error.
- The `ftm.log` calls are left out: logging has no effect on results. The `hexutil.Big` wrapping is left out too, because it is the identity on the integer value.
- Nil pointer arguments (`owner`, `token`) are not modelled. Addresses are passed as values.
- The configuration defaults (internal/config/default.go) are not part of this model. They only forward constants to the configuration library.
