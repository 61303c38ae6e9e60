# A verified model of the early cache server's core

The server emulates the artifact cache of a CI system over HTTP. This early
version has three pieces of logic, and the model covers all three:

- **Identifiers** (`bytes.dfy`, `base32.dfy`, `payload_ids.dfy`, `rfc4648_vectors.dfy`). A cache key and
  version are joined as `key + "|" + version`. The joined bytes are encoded with
  Base32, as in section 6 of RFC 4648: the alphabet is `A`-`Z` and `2`-`7`, padded
  with `=`. Go strings are byte strings, so the model uses `seq<byte>` for them.
  Base32 works bit by bit, most significant bit first. The encoder turns each
  group of five bytes into a quantum of eight symbols. The decoder reads each
  quantum back. The model spells out which inputs the decoder accepts. The
  test vectors of section 10 of RFC 4648 are proved for the encoder.
- **Lookup** (`cache_store.dfy`, `CacheStore.Lookup`). The GET handler stats
  `/data/<id>` and gives one of three answers:
  - 200 with `archiveLocation = origin + "/download/" + id` and `cacheKey = id`;
  - 204 when the file does not exist;
  - 400 for any other error.
- **Reserve** (`cache_store.dfy`, `CacheStore.Reserve` and `CreateEmptyFile`).
  The POST handler checks that the JSON body's `key` and `version` are strings.
  It then creates `/data/<id>` empty, or truncates it if it exists. A failed
  creation ends the process through `log.Fatal`.

The data directory is a class, `CacheStore`:
- `files` maps each file name to its length in bytes;
- `faults` is a fixed set of names on which every file-system call fails;
- `createFaults` is a second set of names: `os.Stat` answers for them, but
  `os.Create` fails on them, as on a read-only or unwritable directory;
- names longer than `NameMax` (255, Linux's NAME_MAX) fail with ENAMETOOLONG.

Lookup is a function, so it cannot change the store. Reserve is a method, and its
contract gives the new `files` map on every path.

What this version does differs from the later design of the server:
- Decoding gives back the joined string, not the (key, version) pair.
- A `|` inside a key is neither rejected nor escaped. So `("a|b", "c")` and
  `("a", "b|c")` get the same identifier (`SeparatorCollision`). The identifier is
  still injective on the joined string. Two pairs whose keys hold no `|` get the
  same identifier only when they are equal (`SeparatorFreeKeysAreDistinguished`).
- Reservation is not exclusive: a second reserve of the same pair truncates the
  file and succeeds again (`ReserveLookupScenario`).
- A failed creation ends the server (`Fatal`), even on a directory where lookups still answer 204 (`ReadOnlyVolumeScenario`). The `WriteHeader(400)` after
  `log.Fatal` (main.go:123) is never reached. The plain-400 branch at
  main.go:126-127 is unreachable too, because the success flag is exactly "no error".
- Together with the 255-byte name limit, a key and version of 155 bytes or more
  give a GET answer of 400 (`LongPairsFailLookup`). A POST with them is `Fatal`.

## Model

| member | source | states |
|---|---|---|
| `Base32.Symbol` | main.go:24 | the symbol for a 5-bit value is in the alphabet `A`-`Z`/`2`-`7`, is not `=`, and the decoder's table maps it back to that value |
| `Base32.Encode` | main.go:24 | `EncodeToString` output has length `8 * ceil(n / 5)` for n input bytes and holds only `A`-`Z`, `2`-`7` and `=` |
| `Base32.RoundTrip` | main.go:22-33 | decoding the encoding of any byte string gives that byte string back, with no error |
| `Base32.EncodeInjective` | main.go:22-25 | two byte strings have the same encoding exactly when they are equal |
| `Rfc4648Vectors.Rfc4648Examples` | main.go:24 | the encoder reproduces all seven base 32 test vectors of section 10 of RFC 4648, from "" to "foobar" = "MZXW6YTBOI======" (bit order, alphabet offsets, padding of partial groups, joining of quanta) |
| `Base32.Decode` | main.go:28 | `DecodeString` fails on every input whose length, once line breaks are removed, is not a multiple of eight. What it decodes holds at most five bytes per quantum |
| `Base32.DecodeQuantumAccepts` | main.go:28 | a quantum decodes exactly when all its bytes are symbols or `=`, the padding runs from the first `=` to the end, it starts after two, four, five or seven symbols, and only the final quantum is padded |
| `Base32.DecodeAccepts` | main.go:28 | `DecodeString` succeeds exactly when the input, without line breaks, is a whole number of quanta and every quantum is well formed |
| `Base32.DecodeRejectsForeignByte` | main.go:28-31 | an input holding any byte other than a symbol, `=` or a line break gives an error |
| `Base32.DecodeRejectsEarlyPad` | main.go:28-31 | a `=` anywhere before the final quantum gives an error |
| `PayloadIds.DecodePayloadId` | main.go:27-33 | a source is decoded only if it holds nothing but symbols, `=` and line breaks; the result has at most five bytes per eight bytes of source |
| `PayloadIds.EncodePayloadId` | main.go:22-25 | the identifier has `8 * ceil(n / 5)` bytes for a join of n bytes, all of them Base32 symbols or `=` |
| `PayloadIds.PayloadIdRoundTrip` | main.go:22-33 | `decodePayloadId(encodePayloadId(k, v))` is `k + "|" + v`, without error, for all k and v |
| `PayloadIds.SameIdIffSameJoin` | main.go:22-25 | two pairs get the same identifier exactly when their joined strings are equal |
| `PayloadIds.SeparatorCollision` | main.go:23 | the pairs `(a + "\|" + b, c)` and `(a, b + "\|" + c)` differ yet get the same identifier |
| `PayloadIds.SeparatorFreeKeysAreDistinguished` | main.go:23-24 | when neither key contains `\|`, equal identifiers mean equal keys and equal versions, and conversely |
| `CacheServer.ArchiveLocation` | main.go:89 | the location is `origin`, then `/download/`, then the identifier, with nothing else |
| `CacheServer.CacheStore.CreateFailure` | main.go:37 | `os.Create` meets every error that `os.Stat` meets on the name. Besides those, it fails exactly on the names in `createFaults` |
| `CacheServer.StringField` | main.go:105-111 | the type assertion succeeds exactly when the field is present and a JSON string, and yields that string |
| `CacheServer.CacheStore.CreateEmptyFile` | main.go:35-40 | the error is the one `os.Create` meets on the name (`CreateFailure`). The flag is true exactly when the error is nil. On success the file exists with length 0, whether or not it existed before. On failure nothing changes |
| `CacheServer.CacheStore.Lookup` | main.go:79-96 | a hit exactly when the identifier's file stats without error. The hit carries `cacheKey == id` and `archiveLocation == origin + "/download/" + id`, and the key decodes to `key + "\|" + version`. 204 exactly when the file does not exist; 400 exactly on any other stat error |
| `CacheServer.CacheStore.Reserve` | main.go:99-129 | A missing or non-string key gives 400 "Invalid key value". Otherwise a missing or non-string version gives 400 "Invalid version value". Both leave the store unchanged. With both present, the id's file is set to length 0 and the answer is 200; or, if creation fails (`CreateFailure`), the store is unchanged and the outcome is `log.Fatal`. The plain 400 never happens. After a 200, lookups of the pair hit from every origin |
| `CacheServer.CacheStore.CollidingPairsShareLookup` | main.go:83-85 | lookups of `(a + "\|" + b, c)` and `(a, b + "\|" + c)` give the same answer |
| `CacheServer.CacheStore.LongPairsFailLookup` | main.go:83-96 | when key and version total 155 bytes or more, the identifier's name is too long and the lookup answers 400 |
| `CacheServer.IdLongerThanNameMax` | main.go:22-25 | the identifier is longer than 255 bytes exactly when key and version total 155 bytes or more |

## Left out

- Routing is left out as transport with no logic of its own: gin routing, the logging middleware, `/ping`, the `NoRoute` echo handler, and JSON binding and response writing (main.go:42-78, 99-103, 131-148). A body that does not bind is the empty map. `Lookup` receives the `keys` and `version` query values and the `Origin` header directly. Go gives `""` for each that is missing.
- `getEnv`, the `PORT` setting and `r.Run` (main.go:15-20, 151) are left out: they are configuration and I/O.
- Console output (`fmt.Println` at main.go:30, 36, 107, 113, 119-120) is left out. It changes neither state nor responses.
- The real file system is replaced by the in-memory `CacheStore`. Failures other than ENAMETOOLONG are fixed sets of failing names: `faults` for every call, `createFaults` for creation only. A failure that comes and goes is not modelled, nor one that hits `os.Stat` but not `os.Create`. The error from `Close` is ignored, as in the source.
- `log.Fatal` is the terminal outcome `Fatal`. The process exit itself, and the refusal of every later request, are not modelled.
- `Base32.Decode` rejects every input whose length, after line breaks are removed, is not a multiple of eight. Go's decoder also accepts a padded final quantum followed by a few extra characters, and ignores them. On malformed input Go's `decodePayloadId` prints the error and returns the bytes decoded before it. It never signals the failure to its caller. The model returns `None` instead, so it does not say which prefix Go would return.
- The model is sequential. The handlers take no locks, so concurrent requests are not modelled.
- This version of the server has no chunked upload, commit, expiry, exclusive reservation, or comma-separated `keys` lists, so none of them is modelled.
