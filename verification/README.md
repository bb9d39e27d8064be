# wechat-qy suite client and JS-SDK signer, modelled in Dafny

This project models the parts of the `wechat-qy` enterprise-WeChat SDK that hold real logic. The rest of the SDK is HTTP and JSON plumbing.

- **`Suite.Retriable`**: the stale-token retry decision of the suite (third-party application) client. It reads the request URL's `suite_access_token`, classifies the `errcode` of the response as success, stale token or other, forces one token refresh for a stale token, and rewrites the `suite_access_token` query parameter.
- **`Suite.Parse`**: the callback gate and dispatch. The signature is checked before decryption, a plaintext for another suite is tolerated, and the `InfoType`/`Event` switch maps to one of fourteen payload kinds.
- **Suite credentials and links**: `SetTicket`, and the links built by `GetAuthURI`, `GetInstallURI` and `GetRegisterURI`.
- **`JSSDKSignature`**: the WeChat JS-SDK signature. The four parameters are written `name=value` in ascending byte order, joined by `&`, hashed with SHA-1 and hex-encoded.

Files, one module each:

- `wrappers.dfy`: `Option`, `Result`.
- `base.dfy`: the `base.Error` envelope, the error codes and the error values.
- `urls.dfy`: `url.Values` as a key-to-values map (`Get`, `Set`, `Add`), and a parsed URL.
- `tokens.dfy`: the `base.Tokener` interface `Retriable` uses, as a class.
- `callback.dfy`: `Parse` and its dispatch.
- `suites.dfy`: the `Suite` class, `Retriable` and its specification `Decide`, and the link builders.
- `hex.dfy`: `hex.EncodeToString` and its inverse.
- `strings.dfy`: Go's byte-wise string order, `sort.Strings` as an in-place insertion sort on an array, `strings.Join` and `strings.Split`.
- `jssdk.dfy`: `JSSDKSignature` and the canonical string.

Modelling decisions:

- `Retriable` is a method on the `Suite` class. It calls the `Tokener` object's `RefreshToken` and `Token`, which change the tokener's fields. Its contract ties the verdict and the tokener's new state to the function `Decide`, and the lemmas beside `Decide` state the source's promises.
- `url.Parse` and the JSON decoding of the body are parameters: an `Option<Url>` and an `Option<Envelope>`, with `None` meaning "did not parse" or "did not decode".
- The triple `(retry, url, err)` becomes `Verdict`:
  - `Pass` is `(false, "", nil)`.
  - `Fail(e)` is `(false, "", e)`.
  - `Retry(u)` is `(true, u.String(), nil)`.
- The tokener's fetcher (`Suite.FetchToken`, an HTTP call) is an `Endpoint`. It gives the answer to the n-th fetch, so each fetch can succeed or fail.
  - `Token` returns the cached token when it is not empty and fetches otherwise.
  - `RefreshToken` always fetches.
  - `FetchToken` can return an empty token without an error (suite/suite.go:245-249). That is how `Token` can still fail right after a successful refresh.
- `base.ErrCodeOk` and the three suite-token codes live in the `base` package, which is not part of this model. `ErrCodeOk` is 0, as the platform defines it. The three stale codes are placeholders 1, 2 and 3, and the proofs use only the fact that the four codes are distinct.
- The message crypter (`GetSignature`, `Decrypt`) and `xml.Unmarshal` are function-valued parameters of `Parse`. A dispatched payload is represented by its kind and the plaintext it was decoded from.
- The link builders take the outcome of their HTTP fetch (`GetPreAuthCode`, `getPreAuthCode`, `GetRegisterCode`) as a `Result`. `GetInstallURI` also reports the pre-auth code it hands to `SetSessionInfo`, if it calls it.
- SHA-1 (FIPS 180-4) is a parameter `string -> Digest`, where a digest is 20 bytes. It stands for `sha1.Sum` applied to the string's bytes. A Go string is modelled as a sequence of characters, one per byte.

## Model

| member | source | states |
|---|---|---|
| `Urls.Get` | suite/suite.go:88 | a non-empty answer of `Values.Get` is a value stored under the key |
| `Urls.Set` | suite/suite.go:110 | after `Values.Set` the key holds exactly the one new value; no other key appears or disappears, and every other key keeps its values |
| `Urls.Add` | suite/suite.go:286-289 | `Values.Add` appends the value after the key's earlier values (or makes it the only one); no other key appears or disappears, and every other key keeps its values |
| `Urls.GetSet` | suite/suite.go:110 | after `Set`, `Get` reads the new value back and every other key reads as before |
| `Urls.BuildDistinct` | suite/suite.go:285-289 | adding pairs with distinct keys to an empty `url.Values` yields exactly those keys, each holding exactly its one value |
| `Tokens.Tokener.constructor` | suite/suite.go:75 | a new tokener holds no token, has fetched nothing and has had no calls |
| `Tokens.Tokener.RefreshToken` | suite/suite.go:101-103 | a refresh fetches once and is logged as one call; a fetched token replaces the cached one and a failed fetch is returned as the error |
| `Tokens.Tokener.Token` | suite/suite.go:105-108 | `Token` returns the cached token without fetching, or fetches when none is held and returns the fetched token or the fetch's error |
| `Callback.Parse` | suite/suite.go:119-192 | an accepted callback had a matching signature, decrypted, had its tags classified to its kind and decoded as that kind; the lemmas below give the converse and each error path |
| `Callback.KnownTags` | suite/suite.go:151-185 | the outer switch selects a kind exactly for its eleven `InfoType` tags (ten cases), the inner one exactly for its seven `Event` tags (four cases) |
| `Callback.InfoTypeFirst` | suite/suite.go:151-172 | a matching `InfoType` decides alone; the `Event` tag is never consulted |
| `Callback.EventOnlyAfterInfoType` | suite/suite.go:172-185 | under any `InfoType` outside the outer switch's tags, the `Event` switch alone decides |
| `Callback.SharedKinds` | suite/suite.go:154-175 | `change_auth` and `cancel_auth` both yield `RecvSuiteAuth`; the four events `change_app_admin`, `subscribe`, `enter_agent`, `unsubscribe` yield `RecvChangeEvent` under every unmatched `InfoType` |
| `Callback.OnlySharedKinds` | suite/suite.go:151-181 | no other two different tags share a kind: two `InfoType` tags with one kind are `change_auth` and `cancel_auth`, two `Event` tags with one kind select `RecvChangeEvent`, and no `Event` tag selects a kind an `InfoType` tag selects |
| `Callback.UnknownExactly` | suite/suite.go:172-184 | a pair of tags is unknown exactly when neither tag is in its table |
| `Callback.EveryKindReachable` | suite/suite.go:150-185 | each of the fourteen payload kinds is selected by some pair of tags |
| `Callback.BadSignatureRejected` | suite/suite.go:127-129 | a signature that differs from `GetSignature(timestamp, nonce, Encrypt)` is rejected whatever decryption would do, so decryption is never reached |
| `Callback.UnknownTypeRejected` | suite/suite.go:182-184 | an authentic, decryptable callback with unmatched tags returns the "unknown message type" error carrying `InfoType` and the plaintext, and no data |
| `Callback.ValidCallbackAccepted` | suite/suite.go:119-191 | an authentic, decryptable callback whose tags select a kind and which decodes as that kind is accepted as that kind with its plaintext, whatever suite id the plaintext names |
| `Callback.DecryptErrorReturned` | suite/suite.go:131-134 | an authentic callback that does not decrypt returns the decryption error |
| `Callback.UndecodableRejected` | suite/suite.go:123-188 | a request body, plaintext probe or payload that does not unmarshal is returned as the decoding error |
| `Callback.SuiteIdTolerated` | suite/suite.go:145-148 | the suite id carried by the plaintext never changes the outcome: a mismatch is logged, not rejected |
| `Suites.LinkQuery` | suite/suite.go:320-324 | the link query carries exactly `suite_id`, `pre_auth_code`, `redirect_uri` and `state`, each with exactly its one value |
| `Suites.Suite.constructor` | suite/suite.go:63-78 | `New` stores the credentials and crypter, holds no ticket, and creates its own fresh tokener |
| `Suites.Suite.Parse` | suite/suite.go:119-134 | the suite's own `Parse` accepts a callback only if its signature matches and it decrypts under this suite's message crypter |
| `Suites.Suite.Retriable` | suite/suite.go:81-116 | the verdict and the tokener's new state are those of `Decide` on the old state; see the lemmas below |
| `Suites.NoTokenPasses` | suite/suite.go:82-90 | a URL that does not parse or has no non-empty `suite_access_token` gives `(false, "", nil)` and leaves the tokener untouched |
| `Suites.UndecodableBodyFails` | suite/suite.go:92-95 | a body that does not decode as an error envelope gives `(false, "", err)` with no refresh |
| `Suites.OkPasses` | suite/suite.go:97-99 | `ErrCodeOk` gives `(false, "", nil)` and leaves the tokener untouched |
| `Suites.OtherCodeFails` | suite/suite.go:113-114 | any other code gives `(false, "", result)`, the envelope itself as the error, with no refresh |
| `Suites.StaleRefreshesOnce` | suite/suite.go:100-108 | a stale-token code makes exactly one `RefreshToken` call, then one `Token` call if the refresh succeeded; a failed refresh is returned as the error; a retry happens exactly when both calls succeed |
| `Suites.TokenFailureAfterRefresh` | suite/suite.go:105-108 | when `Token` fails after a successful refresh, its error is returned and there is no retry |
| `Suites.RetryCarriesFreshToken` | suite/suite.go:100-112 | a retry happens only for a stale code, after exactly one refresh and one `Token` call; the new URL differs only in `suite_access_token`, which holds exactly the token fetched last; every other decoded key keeps its values |
| `Suites.TokenerTouchedOnlyWhenStale` | suite/suite.go:97-115 | the tokener changes only when the code is one of the three stale-token codes |
| `Suites.Suite.TokenRequest` | suite/suite.go:222-226 | the token request body carries exactly the suite's id, secret and current ticket |
| `Suites.Suite.SetTicket` | suite/suite.go:216-218 | `SetTicket` overwrites the ticket, so the next token request carries the new ticket and is otherwise unchanged |
| `Suites.Suite.GetAuthURI` | suite/suite.go:279-292 | a failed pre-auth-code fetch gives `""` and that error; otherwise the login-page link's query is exactly `suite_id`, `pre_auth_code`, `redirect_uri` and `state`, each holding exactly its one value: the suite id, the pre-auth code, the redirect URI and the state |
| `Suites.Suite.GetInstallURI` | suite/suite.go:311-327 | a failed `GetPreAuthCode` gives `""` and that error and no `SetSessionInfo` call; `SetSessionInfo` gets the pre-auth code exactly when `isTest` holds and the fetch succeeded; `SetSessionInfo` gets the same pre-auth code the link carries; the install link's query is exactly `suite_id`, `pre_auth_code`, `redirect_uri` and `state`, each holding exactly its one value |
| `Suites.Suite.GetRegisterURI` | suite/suite.go:559-570 | a failed register-code fetch gives `""` and that error; otherwise the register link carries exactly the one `register_code` |
| `Hex.Digit` | api/jssdk.go:75 | a nibble becomes one lowercase hex digit that reads back as the nibble |
| `Hex.Encode` | api/jssdk.go:75 | hex encoding gives two lowercase hex digits per byte |
| `Hex.DecodeEncode` | api/jssdk.go:75 | decoding undoes the hex encoding, so no two digests share a signature string |
| `Strings.BelowTotal` | api/jssdk.go:69 | any two strings are comparable in Go's byte-wise order |
| `Strings.BelowTransitive` | api/jssdk.go:69 | the byte-wise order is transitive |
| `Strings.BelowAntisymmetric` | api/jssdk.go:69 | the byte-wise order is antisymmetric |
| `Strings.SortStrings` | api/jssdk.go:69 | `sort.Strings` leaves the slice ascending and a permutation of what it held |
| `Strings.SortedUnique` | api/jssdk.go:65-69 | two ascending sequences with the same elements are equal, so the sorted key order does not depend on map iteration order |
| `Strings.SplitJoin` | api/jssdk.go:74 | joining separator-free pieces with a one-character separator is undone by splitting: no separator leads, trails or is lost |
| `Jssdk.SignParams` | api/jssdk.go:59-64 | exactly the four names `jsapi_ticket`, `noncestr`, `timestamp` and `url` are signed, each with its own argument as value |
| `Jssdk.MapKeys` | api/jssdk.go:65-68 | collecting the map's keys yields each key exactly once, in any order |
| `Jssdk.SignedOrder` | api/jssdk.go:65-69 | sorting the four names always yields `jsapi_ticket`, `noncestr`, `timestamp`, `url` |
| `Jssdk.PairsInOrder` | api/jssdk.go:70-73 | the pairs built in sorted key order, each with its own value, join to the canonical string |
| `Jssdk.JSSDKSignature` | api/jssdk.go:58-76 | the error is always nil, and the signature is the hex SHA-1 of the canonical string, a function of the four inputs alone |
| `Jssdk.CanonicalLayout` | api/jssdk.go:65-74 | the canonical string is `jsapi_ticket=T&noncestr=N&timestamp=S&url=U`, with unescaped values and no leading or trailing `&` |
| `Jssdk.JoinFour` | api/jssdk.go:74 | `strings.Join` of four pieces puts one separator between neighbours and none at either end |
| `Jssdk.SignatureShape` | api/jssdk.go:74-75 | the signature is 40 lowercase hex digits |
| `Jssdk.CanonicalSplits` | api/jssdk.go:72-74 | when no value contains `&`, splitting the canonical string on `&` gives back the four pairs |

## Left out

- Every endpoint wrapper of `api/` and `suite/license.go`, and the HTTP methods of `suite/suite.go`: `FetchToken`, `getPreAuthCode`, `GetPreAuthCode`, `SetSessionInfo`, `GetPermanentCode`, `PostJSON`, `GetJSON`, the `resty` calls and the rest. They are HTTP/JSON plumbing over `base.Client`. Their results enter the link builders as `Result` parameters, and `FetchToken` enters the tokener as its `Endpoint`.
- The request-building side of `FetchToken` is modelled only as far as the `TokenRequest` body.
- `Suite.Response`: it depends on a random nonce, the wall clock and XML marshalling.
- `base.Tokener`'s expiry, locking and caching beyond "a non-empty cached token is reused", and `base.Client`'s retry loop. The `base` package is not part of this model.
- AES decryption, signature computation and SHA-1 are foreign code. They appear as function parameters.
- Percent-encoding in `url.Values.Encode`, `url.Parse` and `u.String()`, and the details of XML and JSON decoding. A URL is an opaque location plus a decoded query. In the source, `u.Query()` silently drops malformed pairs, such as a bad `%` escape or a `;`. `Retriable` then rewrites `RawQuery` from the decoded query, so those pairs vanish from the retried URL. The model's URL holds only the decoded query, so it cannot show this loss.
- A query key whose value list is empty would vanish when `Encode` re-serialises the query. `url.Parse` never produces one, and the model does not represent that re-serialisation.
- Logging, `fmt.Println`, and the float `TimeStamp` fields of callback structs.
- `Suites.Suite.GetInstallURI`: the error that `SetSessionInfo` returns is discarded by the source, so it is not an input of the model.
- `Strings.SortStrings`: sorts by insertion, whereas Go's `sort.Strings` uses a different algorithm; only the outcome (ascending, a permutation) is modelled.
