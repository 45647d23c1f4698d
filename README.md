# Hands-on microservices: request handling, modelled in Dafny

This project models the request handling of three small hyper services.

- **Image store** (`chapter5/image_service`). `GET /` answers "Image Service".
  `POST /upload` creates a file under `./files` named by 20 random alphanumeric
  characters and writes the body into it chunk by chunk. The name is the response.
  `GET /download/<name>` first checks the path against
  `^/download/(?P<filename>\w{20})?$`, then streams the file back.
  The file system is the `Storage` class: the set of existing directories and a map
  from path to content. `Storage.Upload` is a loop with one `write_all` per chunk.
  It is proved equal to the specification function `UploadSpec`. The lemmas about
  `UploadSpec`, `DownloadSpec` and `HandleSpec` state the service's guarantees.
- **Random-value service** (`chapter4/random-value-generating_multiple_formats`).
  This covers the route table, the choice of output format from the query, the
  "json"/"cbor" whitelist of `serialize` and the 422 error responses. It also covers
  `color_range`, the shuffle arm and the precedence of the listen address.
  The random generator, the JSON decoder, the query parser and the encoders are
  parameters.
- **Minimal router** (`dmhc/hyper-microservice`). `GET /` serves a fixed HTML page.
  Everything else is 404 with an empty body.

Files: `wrappers.dfy` (Option, Result), `http.dfy` (methods, bodies, responses,
outcomes), `image_name.dfy` (name generation and the download pattern),
`image_service.dfy`, `random_service.dfy`, `hyper_microservice.dfy`.

A handler's future ends in one of three ways, modelled by `Http.Outcome`:
`Respond` (a response), `Fail` (the future's `io::Error`) or `Panic` (the handler
panics).

Behaviours a reader might not expect, modelled as the code has them:

- A well-formed name with no file behind it does not give 404. `File::open` fails,
  so the handler's future fails with `NotFound` (`MissingFileIsIoError`).
- The check accepts `\w`, not only the generator's alphabet. That includes `_` and
  non-ASCII word characters (`CheckAcceptsNamesNeverGenerated`).
- `GET /download/` matches the pattern with the group absent, and `unwrap` panics
  (`BareDownloadPanics`).
- A failed upload does not produce a 500 response. The future fails with the I/O
  error, and the partly written file stays behind (`FailedUploadLeavesOrphanPrefix`).

## Model

| member | source | states |
|---|---|---|
| `ImageName.GenerateName` | chapter5/image_service/src/main.rs:31 | a generated name has 20 characters, each an ASCII letter or digit, taken in sampling order from the `Alphanumeric` alphabet |
| `ImageName.TakeFromAlphabet` | chapter5/image_service/src/main.rs:31 | `take(n).collect()` yields `n` characters, the i-th being the alphabet at the i-th draw |
| `ImageName.AlphabetIsAsciiAlphanumeric` | chapter5/image_service/src/main.rs:11 | a character is in the `Alphanumeric` alphabet exactly when it is an ASCII letter or digit |
| `ImageName.DownloadCaptures` | chapter5/image_service/src/main.rs:19 | the pattern matches exactly `/download/` alone (group absent) or `/download/` followed by 20 word characters, anchored at both ends; a present group is that 20-character suffix |
| `ImageName.GeneratedNameIsCaptured` | chapter5/image_service/src/main.rs:19 | `/download/N` for every generated name N matches and captures N whole |
| `ImageName.CheckAcceptsNamesNeverGenerated` | chapter5/image_service/src/main.rs:19 | twenty underscores, or a name with a Latin-1 letter, pass the check although the generator never yields them |
| `ImageName.CapturedNameIsPlain` | chapter5/image_service/src/main.rs:19 | a captured name has 20 characters and contains no `/`, `.`, `\` or NUL |
| `ImageName.MalformedPathsRejected` | chapter5/image_service/src/main.rs:19 | `/download`, a short name, a 21-character name, a name containing `/` and one starting with `..` do not match |
| `ImageService.ParentOfChild` | chapter5/image_service/src/main.rs:53-54 | the directory of `root/name` is `root` when the name has no separator |
| `ImageService.DownloadStaysInRoot` | chapter5/image_service/src/main.rs:52-54 | the path opened for a captured name is `root/name`, whose directory is the root itself, and the name is never `.` or `..` |
| `ImageService.RouteOf` | chapter5/image_service/src/main.rs:25-69 | the index arm is taken exactly for `GET /`, the upload arm exactly for `POST /upload`, the download arm exactly for a `GET` whose path starts with `/download` |
| `ImageService.ResponseWithCode` | chapter5/image_service/src/main.rs:72-80 | the response carries the given status and an empty body |
| `ImageService.FirstFault` | chapter5/image_service/src/main.rs:37-44 | the fold stops at the first frame whose stream item is an error or whose write fails; all earlier frames are written |
| `ImageService.FirstFaultIsLeast` | chapter5/image_service/src/main.rs:37-44 | a failing frame that every earlier frame got past is the one the fold stops at |
| `ImageService.PayloadAppend` | chapter5/image_service/src/main.rs:40-43 | the bytes written for a body are those of its first part followed by those of its rest: writes only append |
| `ImageService.ChunkStoredInOrder` | chapter5/image_service/src/main.rs:40-43 | each chunk's bytes appear unaltered right after the bytes of the chunks that arrived before it |
| `ImageService.UploadStoresPayload` | chapter5/image_service/src/main.rs:31-47 | a complete upload answers with the name and stores exactly the concatenated chunks under root/name, whatever was there before; other files are unchanged |
| `ImageService.EmptyUploadStoresEmptyFile` | chapter5/image_service/src/main.rs:36-47 | an empty body stores an empty file and still answers with the name |
| `ImageService.FailedUploadLeavesOrphanPrefix` | chapter5/image_service/src/main.rs:36-48 | when a frame fails, the outcome is that first failing frame's I/O error (the body's error or the write's), not the name; the file keeps the chunks before that frame, a prefix of the body; no other file appears and every other file is unchanged |
| `ImageService.UploadWithoutRootFails` | chapter5/image_service/src/main.rs:36 | with the storage root missing, `File::create` fails with `NotFound` and no file changes |
| `ImageService.RejectedDownloadOpensNothing` | chapter5/image_service/src/main.rs:62-64 | a path outside the pattern's language is 404 with an empty body, for every file system content |
| `ImageService.MissingFileIsIoError` | chapter5/image_service/src/main.rs:56-61 | a well-formed name without a file is the I/O error `NotFound`, not a 404 response |
| `ImageService.IndexServed` | chapter5/image_service/src/main.rs:16-28 | `GET /` answers 200 "Image Service" and changes nothing |
| `ImageService.NotFoundLeavesFilesAlone` | chapter5/image_service/src/main.rs:66-80 | unrouted requests and rejected download paths answer 404 with an empty body and change no file |
| `ImageService.BareDownloadPanics` | chapter5/image_service/src/main.rs:50-52 | `GET /download/` panics on the `unwrap` of the absent group instead of answering 404 |
| `ImageService.UploadThenDownload` | chapter5/image_service/src/main.rs:29-61 | after a complete upload under a generated name N, `GET /download/N` answers 200 with exactly the uploaded bytes |
| `ImageService.CreateDirError` | chapter5/image_service/src/main.rs:93 | `fs::create_dir` succeeds exactly when nothing is at the path, its parent directory exists and the system does not refuse; `AlreadyExists` exactly when a directory or a file is there |
| `ImageService.Storage.CreateDir` | chapter5/image_service/src/main.rs:93 | `fs::create_dir` adds the directory on success and otherwise returns its error (`AlreadyExists`, `NotFound` for a missing parent, or the system's refusal) and changes nothing |
| `ImageService.Storage.Bootstrap` | chapter5/image_service/src/main.rs:91-93 | every `create_dir` error is discarded: the root exists afterwards exactly when it existed before or the create succeeded, and no file changes |
| `ImageService.Storage.Create` | chapter5/image_service/src/main.rs:36 | `File::create` fails when the directory is missing, else creates or truncates the file to empty |
| `ImageService.Storage.WriteAll` | chapter5/image_service/src/main.rs:41-42 | a write appends the chunk to the file, or fails with the system's error and changes nothing |
| `ImageService.Storage.Open` | chapter5/image_service/src/main.rs:56 | `File::open` yields the file's content, or `NotFound` |
| `ImageService.Storage.Upload` | chapter5/image_service/src/main.rs:29-48 | the create-then-fold loop produces exactly the outcome and files of `UploadSpec` and leaves the directories alone |
| `ImageService.Storage.Download` | chapter5/image_service/src/main.rs:50-64 | the download arm produces exactly the outcome of `DownloadSpec` and changes nothing |
| `ImageService.Storage.Handle` | chapter5/image_service/src/main.rs:22-70 | the handler produces exactly the outcome and files of `HandleSpec` |
| `ImageService.Serve` | chapter5/image_service/src/main.rs:89-98 | `main` serves from `./files`, which exists afterwards exactly when it existed or could be created, with every file as before |
| `ImageService.FailedBootstrapFailsUploads` | chapter5/image_service/src/main.rs:93 | when `./files` was missing and could not be created, every upload fails with `NotFound` and stores nothing |
| `RandomService.ColorRange` | chapter4/random-value-generating_multiple_formats/src/main.rs:123-126 | the lower bound is the smaller argument and the upper bound the larger, so lower ≤ upper |
| `RandomService.ColorRangeSymmetric` | chapter4/random-value-generating_multiple_formats/src/main.rs:123-126 | the range is the same for either argument order and holds exactly the values between the two arguments |
| `RandomService.Swap` | chapter4/random-value-generating_multiple_formats/src/main.rs:105 | swapping two positions exchanges them, keeps the others and keeps the multiset |
| `RandomService.ShuffleBelow` | chapter4/random-value-generating_multiple_formats/src/main.rs:105 | the top-down swap pass keeps the length and the multiset of the bytes |
| `RandomService.ShuffleBytes` | chapter4/random-value-generating_multiple_formats/src/main.rs:104-107 | a shuffle returns a permutation of the input bytes: same length, same multiset |
| `RandomService.HandleRequest` | chapter4/random-value-generating_multiple_formats/src/main.rs:86-121 | an empty uniform range panics and nothing else does; a uniform value lies in `[start, end)`; Bernoulli gives 0 or 1; shuffle gives a permutation; each colour channel lies in its `color_range` |
| `RandomService.FormatOf` | chapter4/random-value-generating_multiple_formats/src/main.rs:136-140 | the format is the query's string `format` field, and "json" when there is no query, the query does not parse, or `format` is missing or not a string |
| `RandomService.Serialize` | chapter4/random-value-generating_multiple_formats/src/main.rs:171-184 | only "json" and "cbor" can succeed, each with its encoder's result; any other format is the error `unsupported format <format>` |
| `RandomService.Handle` | chapter4/random-value-generating_multiple_formats/src/main.rs:128-169 | `GET /` and `GET /random` answer "Random Microservice"; other unrouted requests answer 404 "Not Found"; statuses are 200, 404 or 422; in this model the future never fails, and it panics only on an empty uniform range |
| `RandomService.DecodeErrorIsUnprocessable` | chapter4/random-value-generating_multiple_formats/src/main.rs:141-157 | a body that does not decode is answered 422 with the decoder's message |
| `RandomService.GenerateResponse` | chapter4/random-value-generating_multiple_formats/src/main.rs:135-159 | a body that does not decode is 422 with the decoder's text; an empty uniform range panics; otherwise a successful serialize is 200 with exactly the encoded bytes and a failed one is 422 with its error text |
| `RandomService.PostAnswersSerialization` | chapter4/random-value-generating_multiple_formats/src/main.rs:141-157 | a `POST /random` that decodes and draws is answered 200 with exactly the serialized bytes, or 422 with the serializer's error text |
| `RandomService.UnsupportedFormatIsUnprocessable` | chapter4/random-value-generating_multiple_formats/src/main.rs:141-157 | an unsupported format is answered 422 with `unsupported format <format>` |
| `RandomService.ShuffleAnswersPermutation` | chapter4/random-value-generating_multiple_formats/src/main.rs:104-149 | without a query a shuffle answers 200 with the JSON of a permutation of the request's bytes |
| `RandomService.ListenAddress` | chapter4/random-value-generating_multiple_formats/src/main.rs:227-233 | the CLI address is chosen over the environment's; a parsing chosen string wins; otherwise the config address and then 127.0.0.1:8080; so an unparseable CLI value shadows a valid environment value |
| `HyperMicroservice.Handle` | dmhc/hyper-microservice/src/main.rs:33-48 | the handler always responds; status 200 exactly for `GET /`, with the `INDEX` page as body; every other request is 404 with an empty body |
| `HyperMicroservice.HandleIgnoresQueryAndBody` | dmhc/hyper-microservice/src/main.rs:36 | the response depends only on method and path |
| `HyperMicroservice.OtherMethodsOnIndexNotFound` | dmhc/hyper-microservice/src/main.rs:40-46 | any method other than GET on `/` is 404 with an empty body |

## Left out

- Futures, `fold` mechanics, `hyper::rt::run` and server binding are not modelled. Each request is handled to completion, one at a time, and there is no concurrency.
- `FileChunkStream` chunk sizes are not modelled: a download's body is the file's whole content.
- Randomness is not modelled. The upload name is a parameter of the handler, and `GenerateName` takes the sampled alphabet positions as input. The random service takes every draw as a `Draws` record that lies in its distribution's support.
- `IsWordChar`: the regex crate's Unicode `\w` is exact on ASCII. Above ASCII it lists only the Latin-1 letters (ª, µ, º, À–Ö, Ø–ö, ø–ÿ), because the full Unicode tables are too large to model.
- `File::open` fails only for a missing file. Permission and other I/O errors are not modelled.
- `File::create` fails only when the directory is missing.
- `ImageService.CreateDirError`: a regular file standing where a parent directory should be is reported as `NotFound`, not as the system's not-a-directory error.
- A failing `write_all` writes nothing of its chunk. The partial write it may really leave behind is not modelled.
- `PathPush`: Windows prefixes and path normalisation are not modelled.
- Paths are compared as strings, so `./files/x` and `files/x` count as different files.
- serde_json, serde_cbor, base64, queryst, clap, dotenv, the TOML configuration reader and logging are foreign libraries. They appear only as parameters: the decoder, the encoders, the query parser, the CLI and environment values, and the configuration address.
- Failure of the body collection in `POST /random` (a `hyper::Error` from `concat2`) is not modelled.
- RandomService.HandleRequest: `f64` values are reals. The panics of `Normal::new` and `Bernoulli::new` on invalid parameters are not modelled, because floating point is left out.
- The `color` module is not part of this model. `Color` is a record of three bytes.
- `chapter5/alt_udp_echo`, `chapter5/single` and `chapter5/send_spawn` are demonstrations of the async runtime and are not part of this model.
