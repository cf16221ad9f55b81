# OneDrive upload backend — a Dafny model

This project models the OneDrive backend of `upload-backend`. It covers:

- **Upload dispatch.** The size policy and the direct upload.
- **Session uploads.** Session creation, the server-driven chunk loop, and the in-place chunk read with its `Content-Range` header.
- **Path resolution.** Folders are resolved by lookup; missing ones are created on a 404, through the mutual recursion of lookup and creation.
- **Error-message sizes.** How a size is written in the file-too-large error.
- **Credentials.** The stored credentials and how the constructors and `refresh` set them.
- **Refresh task.** The two-minute refresh rule and the refresh loop.
- **Endpoints.** The endpoint tables of each account type.

Everything the backend talks to is a parameter:

- **The drive API.** A `Server` is an oracle. It answers a request given every request sent before it, so any behaviour of the service is a possible server. That includes other clients creating the same folders.
- **The wall clock.** A `Clock` reads the time after a given sequence of requests.
- **The token endpoint.** A `TokenEndpoint` is a function from the grant sent to the parsed token response. `None` stands for a failed exchange.
- **The reader.** The file is a `seq<bv8>`. A `grain` function decides how many bytes each `read` call delivers.

Every operation threads the log of requests sent. Statements such as "refused before any request" or "only chunks are sent" are therefore statements about that log.

Outcomes distinguish:

- a value;
- an error of the backend's `Error` enum;
- a panic, from an `unwrap` on `None` or on `Err`, including `error_for_status().unwrap_err()` on a status that is not an error;
- `OutOfFuel`, which only the chunk loop can end in. The service decides how many rounds that loop runs, so the model gives it a bound.

Some behaviours of the code that a reader might not expect, all modelled as the code has them:

- **Unexpected statuses panic.** The catch-all arm of every status match builds its error with `error_for_status().unwrap_err()`. Only a 4xx or 5xx status gives the error; any other status that reaches the arm (a 204, or a 3xx, say) panics (`Remote.Rejected`).
- **Completion on the first chunk is an error.** A "complete" answer to the very first chunk is reported as `UploadFileSession("Upload session expired")`, not as success (`upload.rs:114-119`, `Session.SessionStartsAtZero`).
- **The credentials are stored one at a time.** `refresh` stores the access token, the refresh token and the expiry one after the other, and an `unwrap` between the stores can panic after only some of them (`Auth.AfterRefresh`, `Auth.RefreshAllOrNothing`).
- **A 404 on a folder creation returns the parent's id.** The backend returns whatever creating the parent returns and does not retry the folder itself (`Resolver.CreateNotFoundFallsBack`).

One place departs from the code: the session upload reads the start offset of a range entry with the corrected `Ranges.ParseRangeStart` (the leading number). The code as written parses every piece and panics on an open-ended entry such as `10485760-`, where the model sends the chunk at that offset. This affects `Session.SessionTransfer`, `Session.SendRemaining`, `Session.SessionUpload`, `Dispatch.Upload` and both `Upload` methods. The code as written is modelled beside it (`Ranges.ParseRangeAsWritten`, `Session.OpenRangeStopsLoopAsWritten`); see "## Findings".

Modules, in dependency order:

| module | contents |
|---|---|
| `Base` | `u64`, wrapping add and subtract |
| `Paths` | `Path` at the level of components: `join`, `parent`, `file_name` |
| `Errors` | `Error` and `Outcome` |
| `Remote` | requests, responses, the `Server` and `Clock` oracles, `Rejected` |
| `Decimal` | `u64` display and `str::parse::<u64>` |
| `Ranges` | reading the start of an entry of `nextExpectedRanges` |
| `Resolver` | `get_parent_id`, `create_folder` and `calu_path` against any server |
| `Drive` | the same against a well-behaved drive |
| `Chunks` | `upload_session`'s buffer fill, headers and status mapping |
| `Session` | `create_session` and `upload_file_with_session` |
| `Sizes` | `u64_to_size_string` |
| `Dispatch` | `upload` and `upload_file` |
| `Api` | `ApiType`'s URLs |
| `Auth` | `OnedriveInner` and its credentials |
| `Onedrive` | `Onedrive` and its refresh task |

## Model

Source paths are relative to the repository root.

| member | source | states |
|---|---|---|
| Base.WrappingIsModular | src/backend/onedrive/auth.rs:217-220 | The release-build `u64` `+` and `-` used by `calu_expires_at` and the `Content-Range` end are arithmetic modulo 2^64 |
| Paths.Join | src/backend/onedrive/upload.rs:342 | `Path::join`: a rooted argument replaces the base; a relative one is appended after the base's components |
| Paths.Parent | src/backend/onedrive/upload.rs:343-345 | `Path::parent` exists exactly when there is a component. It is the path minus its last component |
| Paths.FileName | src/backend/onedrive/upload.rs:347-353 | `Path::file_name` exists exactly when the last component is a name, and then it is that name |
| Decimal.Accumulate | src/backend/onedrive/upload.rs:129 | The checked digit loop of `parse::<u64>` (stated through `Decimal.AccumulateOnlyDigits` and `Decimal.AccumulateDecimal`) |
| Decimal.ParseU64 | src/backend/onedrive/upload.rs:129 | `parse::<u64>` (stated through `Decimal.ParseU64OnlyDigits` and `Decimal.DecimalRoundTrip`) |
| Decimal.DecimalString | src/backend/onedrive/upload.rs:177 | A `u64` is written as a nonempty run of digits without leading zeros |
| Decimal.ParseU64OnlyDigits | src/backend/onedrive/upload.rs:129 | `parse::<u64>` accepts only an optional `+` followed by at least one ASCII digit |
| Decimal.AccumulateOnlyDigits | src/backend/onedrive/upload.rs:129 | The checked digit loop of `parse::<u64>` fails on any non-digit, and its value never decreases |
| Decimal.AccumulateDecimal | src/backend/onedrive/upload.rs:129 | The digit loop reads the decimal text of every `u64` back as that number |
| Decimal.DecimalRoundTrip | src/backend/onedrive/upload.rs:129 | `parse::<u64>` inverts `u64` display: `ParseU64(DecimalString(n)) == Some(n)` for every `n` |
| Decimal.Split | src/backend/onedrive/upload.rs:128 | `split('-')` gives at least one piece and no piece contains the separator |
| Decimal.FirstPiece | src/backend/onedrive/upload.rs:127-128 | The first piece of a split is a separator-free prefix, followed in the string by the separator or by nothing |
| Decimal.FirstPieceOfSplit | src/backend/onedrive/upload.rs:127-128 | `FirstPiece` is element 0 of `Split` |
| Decimal.SplitAtFirst | src/backend/onedrive/upload.rs:128 | Splitting `x-t`, with `x` free of `-`, gives `x` followed by the pieces of `t` |
| Decimal.SplitWhole | src/backend/onedrive/upload.rs:128 | A string without `-` splits into itself alone |
| Ranges.ParseRangeAsWritten | src/backend/onedrive/upload.rs:127-132 | As written (every piece parsed and `unwrap`ped, the first taken), any value produced agrees with the intended leading-number reading |
| Ranges.ParseRangeStart | src/backend/onedrive/upload.rs:127-132 | The corrected reading of a range entry: its leading number (stated through `Ranges.RangeStartRoundTrip`) |
| Ranges.RangeStartRoundTrip | src/backend/onedrive/upload.rs:127-132 | The start offset is recovered from every range entry `start-…`, closed or open-ended |
| Ranges.ClosedRangeAsWritten | src/backend/onedrive/upload.rs:127-132 | On a closed range `a-b` the code as written yields `a` |
| Ranges.OpenRangePanicsAsWritten | src/backend/onedrive/upload.rs:127-132 | On an open range `a-` the code as written panics where the intended reading yields `a` |
| Resolver.ItemId | src/backend/onedrive/upload.rs:259-274 | The folder id is the reply's `id` string. A body that is not JSON gives the call's own error, a missing `id` gives `Parsing`, and it never panics |
| Resolver.Lookup | src/backend/onedrive/upload.rs:238-247 | The lookup request: the drive root for `/`, a by-path lookup for any other folder (stated through `Resolver.GetParentId`) |
| Resolver.GetParentId | src/backend/onedrive/upload.rs:237-282 | The first request is the folder's lookup: the root lookup for `/`, a by-path lookup otherwise. Only lookups and creations are sent, and the log only grows; its outcome per status is `Resolver.LookupOutcome` |
| Resolver.LookupOutcome | src/backend/onedrive/upload.rs:249-281 | After exactly the lookup: 200 gives the id in the body, 404 hands over to the creation, a failed exchange or error status is `GetParentId(folder)`, and any other status panics |
| Resolver.CreateFolder | src/backend/onedrive/upload.rs:284-334 | A folder without a parent is `InvalidPath` and sends nothing. Otherwise the parent's lookup comes first, and only lookups and creations are sent; its outcome is `Resolver.CreateFolderOutcome` |
| Resolver.CreateFolderOutcome | src/backend/onedrive/upload.rs:288-333 | A failed parent resolution is passed on; a folder with no name panics; after the creation request 201 gives the new id, a failed exchange or an error status other than 404 is `CreateDir(folder)`, and any other status panics |
| Resolver.CaluPath | src/backend/onedrive/upload.rs:336-356 | Every exit: a rooted path is `InvalidPath` before any request; a join without a parent is `InvalidPath` before any request; a failed resolution of the parent is passed on; a resolved parent without a file name is `InvalidPath`; otherwise the parent's id, as `GetParentId` computes it, and the join's file name |
| Resolver.CreateNotFoundFallsBack | src/backend/onedrive/upload.rs:328 | A 404 on a folder creation returns exactly what creating the parent returns |
| Resolver.LookupRequestBound | src/backend/onedrive/upload.rs:237-282 | Whatever the server answers, resolving a folder `n` components deep sends at most 2^(n+1)-1 requests. The recursion is bounded by the path's depth |
| Resolver.CreateRequestBound | src/backend/onedrive/upload.rs:284-334 | Whatever the server answers, a folder creation `n` components deep sends at most 2^(n+1)-2 requests |
| Drive.ParentResolvable | src/backend/onedrive/upload.rs:285-288 | A missing resolvable folder has a parent, which is resolvable and shorter, and has a name |
| Drive.Missing | src/backend/onedrive/upload.rs:276 | The missing folders on the way to `f` are ordered parent before child. The first has an existing parent and the last is `f` |
| Drive.ResolveOnDrive | src/backend/onedrive/upload.rs:237-334 | On a drive that answers from its folder set, resolving a rooted plain folder succeeds. Its id is the existing one or the created one, after lookups going up and creations coming down |
| Drive.Creations | src/backend/onedrive/upload.rs:296-303 | The creations picked out of a request log are all folder creations |
| Drive.CreationsAppend | src/backend/onedrive/upload.rs:296-303 | The creations of a concatenation are those of each part, in order |
| Drive.OneCreationPerMissingFolder | src/backend/onedrive/upload.rs:276-303 | Exactly one creation is sent per missing folder, parents first, each under the id its parent resolved to |
| Drive.CreationsGoingDown | src/backend/onedrive/upload.rs:288-303 | A missing folder's creation comes after all of its parent's creations |
| Remote.Rejected | src/backend/onedrive/upload.rs:194-196 | The catch-all arm's `error_for_status().unwrap_err()`: an error for 4xx/5xx, a panic otherwise (stated through the status lemmas `Chunks.ChunkStatusCases`, `Session.SessionCreated`, `Dispatch.FileUploaded`, `Resolver.LookupOutcome`) |
| Chunks.ChunkAt | src/backend/onedrive/upload.rs:153-169 | The chunk at an offset (stated through `Chunks.ChunkAtSlice` and `Chunks.ReadChunk`) |
| Chunks.ChunkAtSlice | src/backend/onedrive/upload.rs:153-169 | A chunk at `start` has `min(CHUNK_SIZE, n - start)` bytes, which are exactly `stream[start..start+len]`, and none past the end |
| Chunks.ReadCount | src/backend/onedrive/upload.rs:160-166 | One `read` delivers no more than is left or fits. It delivers zero only at end of stream or when the buffer is full |
| Chunks.ReadChunk | src/backend/onedrive/upload.rs:152-169 | Filling the 10 MiB buffer in place by reads of any lengths, then truncating it, yields exactly the chunk at `start` |
| Chunks.LastByte | src/backend/onedrive/upload.rs:177 | `start_pos + len - 1` on `u64` (stated through `Chunks.LastByteValue`) |
| Chunks.LastByteValue | src/backend/onedrive/upload.rs:177 | `start_pos + len - 1` is the last byte's offset within range. It wraps to 2^64-1 for an empty chunk at offset 0 |
| Chunks.ChunkRequest | src/backend/onedrive/upload.rs:171-179 | The chunk `PUT` with its headers (stated through `Chunks.ChunkRequestHeaders`) |
| Chunks.ChunkRequestHeaders | src/backend/onedrive/upload.rs:171-179 | The chunk `PUT` goes to the session URL with the chunk as body, `Content-Length` = its length, and `Content-Range` from `start` over exactly those bytes of `size` |
| Chunks.ChunkStatus | src/backend/onedrive/upload.rs:184-197 | The status mapping after a chunk (stated through `Chunks.ChunkStatusCases`) |
| Chunks.ChunkStatusCases | src/backend/onedrive/upload.rs:184-197 | 202 with ranges and expiry is `Some` of them, and 200/201 is `None`. It panics exactly on another non-error status; every other case is `UploadFileSessionRequest` |
| Session.SessionCreated | src/backend/onedrive/upload.rs:222-234 | Creation succeeds only on 200 with an upload URL and expiry. It panics exactly on another non-error status; every other case is `CreateUploadSessionRequest` |
| Session.CreateSession | src/backend/onedrive/upload.rs:200-235 | A rooted path is refused before any request; a failed resolution is passed on with nothing more sent; otherwise the session request for the resolved parent and name follows the resolution directly and the outcome is `SessionCreated` of its answer |
| Session.SessionTransfer | src/backend/onedrive/upload.rs:114-115 | The session's transfer sends, for every offset, the chunk request of the stream at that offset to the session's URL |
| Session.ChunkExchange | src/backend/onedrive/upload.rs:171-197 | Sending the chunk at an offset and mapping the answer (the specification `Session.UploadSession` is proved against) |
| Session.UploadSession | src/backend/onedrive/upload.rs:145-198 | The imperative chunk read, request and status mapping produce exactly `ChunkExchange`: the chunk at `start` sent and its answer mapped |
| Session.Round | src/backend/onedrive/upload.rs:122-139 | One round of the loop (stated through `Session.RoundSendsCheckedChunk`, `Session.ExpiredSessionSendsNothing`, `Session.NextChunkAtReportedRange`) |
| Session.RoundSendsCheckedChunk | src/backend/onedrive/upload.rs:121-139 | A round sends at most one request, a chunk of the transfer, and only within the expiry. An expired session fails with nothing sent, and a round that sends nothing fails |
| Session.ChunkLoop | src/backend/onedrive/upload.rs:121-140 | The loop only appends to the request log |
| Session.LoopSendsOnlyChunks | src/backend/onedrive/upload.rs:121-140 | The loop sends nothing but chunks of the transfer |
| Session.LoopChecksExpiry | src/backend/onedrive/upload.rs:121-126 | Every chunk the loop sends goes out while the clock is within the latest reported expiry |
| Session.WithinExpiryExtend | src/backend/onedrive/upload.rs:121-126 | The expiry check of one round composes with those of the following rounds |
| Session.LoopSucceedsOnlyWhenDone | src/backend/onedrive/upload.rs:121-142 | The loop succeeds only if nothing was outstanding or the service's last answer said complete or nothing outstanding |
| Session.RoundSaysDone | src/backend/onedrive/upload.rs:133-139 | A round that ends the loop successfully sent a chunk whose answer says the upload is done |
| Session.SessionUpload | src/backend/onedrive/upload.rs:101-143 | The session upload only appends to the request log |
| Session.UploadFileWithSession | src/backend/onedrive/upload.rs:101-143 | The imperative session upload ends in exactly the outcome and request log of `SessionUpload` |
| Session.SendRemaining | src/backend/onedrive/upload.rs:113-142 | The imperative `while` loop, updating `start_pos` and `uploading`, ends in exactly the outcome and log of `ChunkLoop` |
| Session.ExpiredSessionSendsNothing | src/backend/onedrive/upload.rs:122-126 | An expired session fails with "Upload session expired" and sends no further chunk |
| Session.NextChunkAtReportedRange | src/backend/onedrive/upload.rs:127-135 | The next chunk starts at the leading number of the first reported range, not where the previous chunk ended |
| Session.OpenRangeStopsLoopAsWritten | src/backend/onedrive/upload.rs:127-132 | With the parse as written, an open range `a-` makes the loop panic before sending anything |
| Session.MoreRoundsSameEnd | src/backend/onedrive/upload.rs:121-140 | The round bound does not affect any upload that ends within it |
| Session.LoopUnfold | src/backend/onedrive/upload.rs:121-140 | One round, then the loop continues on 202 with more ranges; it succeeds on complete and propagates any failure |
| Session.SessionStartsAtZero | src/backend/onedrive/upload.rs:107-119 | An expired new session fails with no chunk sent. Otherwise the first chunk is at offset 0, and a "complete" answer to it is reported as an expired session |
| Session.SessionChunksArePuts | src/backend/onedrive/upload.rs:171-179 | Every chunk request of a session transfer is a chunk `PUT` |
| Session.CreateSessionRequests | src/backend/onedrive/upload.rs:200-220 | Session creation sends lookups, creations and the session request only |
| Session.SessionSendsOnlySessionRequests | src/backend/onedrive/upload.rs:101-143 | A session upload sends only lookups, creations, the session request and chunks, never a whole-file `PUT` |
| Sizes.FindUnit | src/backend/onedrive/upload.rs:363-367 | The search from index `i` stops at the first unit whose next power of 1024 exceeds the size, or at YB |
| Sizes.UnitIndex | src/backend/onedrive/upload.rs:363-367 | The unit is one with `size < 1024^(u+1)` (or YB), and `size >= 1024^j` for every `j <= u` |
| Sizes.UnitIndexIsSmallest | src/backend/onedrive/upload.rs:366 | The unit index is the smallest `i` with `size < 1024^(i+1)` |
| Sizes.UnitIndexAtLeast | src/backend/onedrive/upload.rs:366 | A size of at least `1024^k` is written in unit `k` or a larger one |
| Sizes.TwoDigits | src/backend/onedrive/upload.rs:368 | The decimals are always exactly two digits |
| Sizes.Hundredths | src/backend/onedrive/upload.rs:368 | The hundredths of a fraction below one are below 100 |
| Sizes.SizeString | src/backend/onedrive/upload.rs:360-369 | The size text, computed on integers (stated through `Sizes.UnitIndex` and the three test lemmas) |
| Sizes.SizeStringKilobyte | src/backend/onedrive/upload.rs:378-380 | 1024 is written "1.00 KB" |
| Sizes.SizeStringMegabytes | src/backend/onedrive/upload.rs:382-384 | 2·1024² is written "2.00 MB" |
| Sizes.SizeStringLimit | src/backend/onedrive/upload.rs:386-388 | 250·1024³ is written "250.00 GB" |
| Dispatch.FileUploaded | src/backend/onedrive/upload.rs:93-98 | The direct upload succeeds exactly on 200/201. It panics exactly on another non-error status; any other case is `UploadFile` |
| Dispatch.UploadFile | src/backend/onedrive/upload.rs:63-99 | A rooted path is refused before any request; a failed resolution is passed on with nothing more sent; after a successful one exactly one `PUT` of the whole stream to the resolved parent and name follows, and the outcome is `FileUploaded` of its answer |
| Dispatch.Upload | src/backend/onedrive/upload.rs:25-46 | The upload only appends to the request log |
| Dispatch.TooLargeRefusedUpfront | src/backend/onedrive/upload.rs:31-37 | Above 250 GiB the upload is `FileTooLarge(path, size text)` with no request sent. The size is written in GB or a larger unit |
| Dispatch.SmallFileGoesDirect | src/backend/onedrive/upload.rs:39-40 | Below 10 MiB the upload is the direct upload: only lookups, creations and `PUT`s, and on success the last request is the `PUT` of the whole stream |
| Dispatch.LargeFileGoesThroughSession | src/backend/onedrive/upload.rs:39-43 | From 10 MiB up to 250 GiB inclusive the upload is the session upload, and no whole-file `PUT` is sent |
| Api.TokenUrlReplacesAuthorize | src/backend/onedrive/mod.rs:143-165 | For every account type, the token URL is the authorization URL with its last segment `authorize` replaced by `token` |
| Api.CommonEndpoints | src/backend/onedrive/mod.rs:145-158 | The two endpoints of `Common` share their login base |
| Api.ConsumersEndpoints | src/backend/onedrive/mod.rs:146-159 | The two endpoints of `Consumers` share their login base |
| Api.OrganizationsEndpoints | src/backend/onedrive/mod.rs:149-162 | The two endpoints of `Organizations` share their login base |
| Api.ChinaEndpoints | src/backend/onedrive/mod.rs:152-163 | The two endpoints of `ChinaApi` share their login base |
| Api.GraphUrlGlobalUnlessChina | src/backend/onedrive/mod.rs:168-175 | The Graph URL is the global one exactly for the account types other than `ChinaApi` |
| Auth.MakeClient | src/backend/onedrive/auth.rs:45-59 | The client's endpoints are those of the account type |
| Auth.CaluExpiresAt | src/backend/onedrive/auth.rs:217-220 | `calu_expires_at` (stated through `Auth.ExpiresAtIsNowPlusLifetime`) |
| Auth.ExpiresAtIsNowPlusLifetime | src/backend/onedrive/auth.rs:217-220 | Without overflow the expiry is `now + expires_in`, later than now for a positive lifetime. With overflow it wraps to before now |
| Auth.Initial | src/backend/onedrive/auth.rs:203-205 | The credentials `new` reads from a token response (stated through `Auth.OnedriveInner.New` and `Auth.NewAgreesWithRefresh`) |
| Auth.AfterRefresh | src/backend/onedrive/auth.rs:72-93 | `refresh` on values (stated through `Auth.RefreshAllOrNothing`; `Auth.OnedriveInner.Refresh` is proved against it) |
| Auth.RefreshAllOrNothing | src/backend/onedrive/auth.rs:72-93 | A refresh succeeds iff the answer has a refresh token and a lifetime, and then replaces all three values. A failed exchange is `RefreshToken` and changes nothing. Otherwise it panics with a new access token and the old expiry |
| Auth.NewAgreesWithRefresh | src/backend/onedrive/auth.rs:82-90 | `new` and a successful `refresh` store the same three values from a token response |
| Auth.Exchanged | src/backend/onedrive/auth.rs:61-69 | A constructor sends exactly its one grant to the token endpoint |
| Auth.RefreshTokenStart | src/backend/onedrive/auth.rs:39-69 | A folder without a root is `InvalidPath` with no exchange. Otherwise exactly the given refresh token is exchanged and the start is `Exchanged`'s |
| Auth.CodeStart | src/backend/onedrive/auth.rs:102-194 | A folder without a root is `InvalidPath`; a redirect URL that does not parse panics; a state mismatch is `CsrfToken`; all three with no exchange. Otherwise exactly the code is exchanged and the start is `Exchanged`'s |
| Auth.ExchangeDecidesStart | src/backend/onedrive/auth.rs:184-194 | After its checks a constructor succeeds iff the answer has a refresh token and a lifetime, and then keeps what `new` builds. A failed exchange is `RefreshToken`, and nothing else can happen but a panic |
| Auth.ShouldRefresh | src/backend/onedrive/mod.rs:119 | The refresh rule `now + 120 > expires_at` on `u64` (stated through `Auth.RefreshWithinTwoMinutes`) |
| Auth.RefreshWithinTwoMinutes | src/backend/onedrive/mod.rs:117-119 | Away from the top of the `u64` range, `now + 120 > expires_at` holds exactly when the token expires within two minutes |
| Auth.OnedriveInner.constructor | src/backend/onedrive/auth.rs:206-213 | The struct literal stores the client, account type, folder and the three credentials given |
| Auth.OnedriveInner.New | src/backend/onedrive/auth.rs:197-214 | `new` panics exactly when the response lacks a refresh token or lifetime. Otherwise it builds a fresh backend holding the client, account type and folder given and the credentials of `Initial` |
| Auth.OnedriveInner.NewWithRefreshToken | src/backend/onedrive/auth.rs:32-70 | Ends in exactly the outcome and grants of `RefreshTokenStart`. On success: a fresh backend, with that account type's client, holding the folder given |
| Auth.OnedriveInner.NewWithCode | src/backend/onedrive/auth.rs:95-195 | Ends in exactly the outcome and grants of `CodeStart`. On success: a fresh backend, with that account type's client and redirect URL, holding the folder given. An unparsable redirect URL panics |
| Auth.OnedriveInner.Refresh | src/backend/onedrive/auth.rs:72-93 | Exchanges the refresh token stored before the call. The outcome and the new stored credentials are those of `AfterRefresh` on the old ones |
| Auth.OnedriveInner.Upload | src/backend/onedrive/upload.rs:25-46 | The imperative dispatch ends in exactly the outcome and log of `Dispatch.Upload` into the backend's folder |
| Onedrive.OnePass | src/backend/onedrive/mod.rs:117-128 | One pass of the refresh loop (stated through `Onedrive.PassRefreshesIffRule`) |
| Onedrive.RefreshTask | src/backend/onedrive/mod.rs:114-132 | The refresh loop over its passes (stated through `Onedrive.FailedRefreshKeepsGoing` and `Onedrive.CompleteAnswersKeepTaskAlive`; `Onedrive.Onedrive.RefreshHandle` is proved against it) |
| Onedrive.PassRefreshesIffRule | src/backend/onedrive/mod.rs:116-128 | A pass attempts a refresh exactly when `now + 120 > expires_at`, exchanging the stored refresh token. Otherwise it changes nothing |
| Onedrive.FailedRefreshKeepsGoing | src/backend/onedrive/mod.rs:120-129 | A failed refresh leaves the credentials as they were, and the task goes on with the next pass |
| Onedrive.CompleteAnswersKeepTaskAlive | src/backend/onedrive/mod.rs:114-132 | While the token endpoint answers completely, the task never dies and every attempt succeeds or is `RefreshToken` |
| Onedrive.Onedrive.constructor | src/backend/onedrive/mod.rs:80-83 | The backend holds the given inner backend |
| Onedrive.Onedrive.RefreshToken | src/backend/onedrive/mod.rs:62-64 | Returns the refresh token stored at that moment, unchanged |
| Onedrive.Onedrive.Upload | src/backend/onedrive/mod.rs:50-58 | Forwards stream, size and path unchanged: the outcome and log are the inner backend's `Dispatch.Upload` into its folder |
| Onedrive.Onedrive.RefreshHandle | src/backend/onedrive/mod.rs:114-132 | The imperative refresh loop leaves the stored credentials, the attempts and whether it panicked exactly as `RefreshTask` on the passes |
| Onedrive.Onedrive.NewWithRefreshToken | src/backend/onedrive/mod.rs:86-111 | An inner construction failure is returned and no backend is built. On success the backend holds the credentials of `RefreshTokenStart` |
| Onedrive.Onedrive.NewWithCode | src/backend/onedrive/mod.rs:66-84 | An inner construction failure is returned and no backend is built. On success the backend holds the credentials of `CodeStart` |

## Left out

- HTTP and JSON: requests are structured values, not URLs, headers and bodies. The `Authorization: Bearer` header, the JSON request bodies and the Graph base URL inside request URLs are not represented; a response body is kept only as the fields the backend reads.
- `reqwest` and `std::io` error sources and the text of `RefreshToken` and `Parsing` errors are not kept; the error variants are.
- The OAuth 2.0 library: building the client (`AuthUrl::new(...).expect` and `TokenUrl::new(...).expect`, on constant valid URLs), PKCE, the random CSRF state and the authorization URL; the token endpoint is an oracle and the state generated is a parameter.
- Auth.OnedriveInner.NewWithCode: whether `RedirectUrl::new` accepts the caller's redirect URL is an oracle `isUrl`; URL parsing itself is not modelled.
- The blocking redirect server of `new_with_code` (TCP listener, request-line and query parsing, the reply to the browser) and its `unwrap` panics: the code and state it yields are parameters.
- Tokio: spawning the refresh task, `sleep(60 s)` between passes and `abort` on `Drop`. The task is modelled over a finite sequence of passes, each with its own clock readings.
- `ArcSwap` and `AtomicU64`, and concurrency between uploads and the refresh task: the credentials are plain fields updated by one task.
- Reading the file: the seek and `read` calls cannot fail in the model (`ReadFile` is never produced), and `upload_file`'s `read_to_end` reads the whole stream.
- Onedrive.Onedrive.RefreshHandle: runs over a finite list of passes; the source loops forever.
- Session.ChunkLoop: runs at most `fuel` rounds and ends in `OutOfFuel` after them; the source loops for as long as the service keeps expecting data.
- Sizes.SizeString: computed on integers (the hundredths are truncated). `{:.2}` on an `f64` rounds, and above 2^53 the conversion to `f64` rounds too, so the text is claimed equal only on the three tested sizes.
- Sizes.UnitIndex: chooses the unit on the exact size. `size as f64` rounds every size in [2^60 - 64, 2^60) up to 2^60, so the code writes those sizes in EB where the model chooses PB. No other unit boundary is affected, because 1024^5 = 2^50 is below 2^53.
- `u64` arithmetic is modelled as a release build computes it (wrapping); a debug build would panic on the overflow instead.
- `Utc::now().timestamp() as u64`: the clock is given as a `u64`, so a clock before 1970 is not modelled.
- `debug!`/`warn!` logging.

## Findings

| source | as written | input that shows it | evidently intended | confidence | as-written member | corrected member |
|---|---|---|---|---|---|---|
| src/backend/onedrive/upload.rs:127-132 | Every piece of the range entry split at `-` is parsed with `unwrap`, then the first number is used | An open-ended entry such as `"10485760-"` from `nextExpectedRanges`: its empty second piece does not parse and the upload panics | Only the leading number is needed: the start offset `10485760` | not executed | Ranges.OpenRangePanicsAsWritten, Session.OpenRangeStopsLoopAsWritten | Ranges.RangeStartRoundTrip, Session.NextChunkAtReportedRange |
