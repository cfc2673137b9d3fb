# fhir-kindling upload: a Dafny model

This project models the upload module of fhir-kindling (`fhir_kindling/upload.py`), which posts
FHIR bundles and single resources to a FHIR server and turns the server's answers into references
to the created resources. The model covers:

- the request headers every server type gets (`generate_fhir_headers`);
- how a response is handled per server type (`_upload_bundle`, `upload_resource`): an `ibm` server's
  response headers are returned with no status check, and every other server's response must pass
  `raise_for_status` before its JSON body is returned;
- reference construction: the bundle-entry rule `"/".join(location.split("/")[:2])`
  (`_get_references_from_bundle_response`), the `ibm` rule that takes segments `[-4]` and `[-3]` of
  the `location` header, and the `resourceType/id` rule for other servers;
- the dispatch of `upload_bundle` over a bundle in memory, a bundle file, or a directory of bundle
  files, and the optional pairing of the result with references.

Python's own semantics are modelled where the code depends on them: `str.split("/")` (module `Py`,
with `""` giving `[""]` and a leading slash giving an empty first piece), `"/".join`, slicing `[:2]`
of a shorter list, dict subscripts that raise `KeyError` or `TypeError`, and what a `for` loop
visits (module `PyJson`). The exceptions the code can raise are values of `Wrappers.Error`, and
every operation returns a `Result`.

The network call (`requests.post`) is a function value `Http.Poster` from request to response, and
`load_bundle` is a function value `Upload.Loader` from path to bundle or error. The credential is
passed in already resolved. The HTTP request and response are plain records (`Http.Request`,
`Http.Response`).

Modules: `Wrappers` (Option, Result, Error), `Py` (strings and lists), `PyJson` (JSON values as
Python sees them), `Http` (requests' response handling), `Upload` (the module itself).

Behaviour of the code worth knowing:

- `raise_for_status` raises only for statuses 400 to 599. A 1xx, 3xx or 6xx status passes the check
  and its body is returned.
- For `ibm`, reference extraction from a bundle response returns an empty list. It does not signal
  an unsupported operation.
- A directory upload stops at the first file whose load or upload fails. Per-file failures are not
  isolated.
- `upload_bundle` accepts a `validate` flag and never uses it.

## Model

| member | source | states |
|---|---|---|
| `Upload.GenerateFhirHeaders` | fhir_kindling/upload.py:155-163 | for every server type, blaze included, the headers have exactly one key, `Content-Type`, mapped to `application/fhir+json` |
| `Py.Split` | fhir_kindling/upload.py:136 | `str.split("/")` yields at least one piece and no piece contains a slash |
| `Py.Take` | fhir_kindling/upload.py:136 | slicing `[:n]` yields a prefix of the list of length `min(n, len)` |
| `Py.Join` | fhir_kindling/upload.py:136 | `"/".join(parts)`: the empty list gives `""`, and otherwise the result starts with the first piece, followed by `/` when there is a second |
| `Py.JoinSplit` | fhir_kindling/upload.py:136 | joining the pieces of a split with `/` gives back the original string |
| `Py.SplitJoin` | fhir_kindling/upload.py:136 | splitting a `/`-join of slash-free pieces gives back the pieces |
| `Py.SplitConcat` | fhir_kindling/upload.py:95 | splitting `x + "/" + y` splits `x` and `y` independently and concatenates the pieces |
| `Py.SplitLength` | fhir_kindling/upload.py:102-106 | a string splits into exactly one more piece than it has slashes |
| `PyJson.Subscript` | fhir_kindling/upload.py:135 | `value[key]` succeeds exactly on a dict holding the key and yields its value; a dict without the key raises `KeyError`, any other value `TypeError` |
| `PyJson.Iterate` | fhir_kindling/upload.py:134 | a list is iterated over its elements and a string over its one-character strings, in order; an empty dict gives no items and a non-empty one the `TypeError` its first string key raises when subscripted; numbers, bools and `None` raise `TypeError` |
| `Http.CheckedBody` | fhir_kindling/upload.py:150-152 | a 4xx or 5xx status raises `HttpError` before the body is parsed; otherwise a JSON body is returned unchanged and a non-JSON body raises a decode error |
| `Http.SuccessPassesCheck` | fhir_kindling/upload.py:150-152 | a 2xx response (201 Created included) with a JSON body yields that body unchanged |
| `Upload.ReferenceFromLocation` | fhir_kindling/upload.py:136 | the bundle-entry rule `"/".join(location.split("/")[:2])`; its result is a prefix of the location |
| `Upload.ReferenceIsPrefix` | fhir_kindling/upload.py:136 | the extracted reference is a prefix of its location, and when shorter it ends just before a slash of the location |
| `Upload.ReferenceSlashCount` | fhir_kindling/upload.py:136 | the reference contains at most one slash: exactly one when the location has any, none otherwise |
| `Upload.ReferenceOfFewSlashes` | fhir_kindling/upload.py:136 | a location with at most one slash, in particular one with none, is returned as is |
| `Upload.ReferenceIdempotent` | fhir_kindling/upload.py:136 | applying the rule to an extracted reference returns it unchanged |
| `Upload.ReferenceOfSegments` | fhir_kindling/upload.py:136 | for slash-free segments, the rule keeps the first two segments joined by `/` |
| `Upload.ReferenceOfFhirLocation` | fhir_kindling/upload.py:136 | a location `Type/id/_history/vid` gives `Type/id` |
| `Upload.IbmReference` | fhir_kindling/upload.py:102-106 | a missing `location` header raises `KeyError`; otherwise a reference exists exactly when the location has at least three slashes (four segments), and else `IndexError` is raised; the reference is segment `[-4]`, a slash and segment `[-3]` of the location, with type segment `[-4]` |
| `Upload.IbmReferenceOfLocation` | fhir_kindling/upload.py:102-106 | for a header `base/Type/id/marker/vid` with slash-free segments and any base and marker, the reference is `Type/id` with type `Type`, which is the reference the bundle-entry rule gives for `Type/id/marker/vid` |
| `Upload.BodyReference` | fhir_kindling/upload.py:116-119 | the reference is `resourceType + "/" + id` and its type is `resourceType`, taken from the body; it exists exactly when the body is a dict holding both as strings; a non-dict body raises `TypeError`, a dict without `resourceType` raises `KeyError("resourceType")`, and one with it but without `id` raises `KeyError("id")` |
| `Upload.BodyReferenceRoundTrip` | fhir_kindling/upload.py:116-119 | for a slash-free type and id, the reference splits back into exactly `[type, id]`, and the bundle-entry rule leaves it unchanged |
| `Upload.Entries` | fhir_kindling/upload.py:134 | the items `for entry in response["entry"]` visits: a response holding `entry` gives exactly what iterating that value gives (a list its elements, a string its characters, an empty dict nothing, and a number, bool, `None` or non-empty dict `TypeError`); a response without `entry` raises `KeyError("entry")`, a non-dict response `TypeError`, and no other error arises |
| `Upload.LocationOf` | fhir_kindling/upload.py:135-136 | `entry["response"]["location"]` exists exactly when both lookups succeed and the location is a string, and is that string; an entry or `response` value that is not a dict raises `TypeError`, a missing key raises `KeyError` of that key, and a non-string location raises `AttributeError` at `.split` |
| `Upload.ReferencesOf` | fhir_kindling/upload.py:134-138 | one reference per entry, in entry order, each the rule applied to that entry's location; it fails exactly when some entry has no string location, and then with the error of the first such entry |
| `Upload.ExtractReferences` | fhir_kindling/upload.py:125-139 | for `ibm` the list is empty whatever the response; otherwise it succeeds exactly when `response["entry"]` can be iterated and every entry has a string location, with one reference per entry, in order; a response without entries fails with that lookup's error, and otherwise the first entry without a location decides the error |
| `Upload.GetReferencesFromBundleResponse` | fhir_kindling/upload.py:125-139 | the loop that appends one reference per entry computes exactly `ExtractReferences`, errors included |
| `Upload.ExtractFromLocations` | fhir_kindling/upload.py:134-138 | a response whose entries carry locations yields the reference of each location, in order |
| `Upload.ExtractExample` | fhir_kindling/upload.py:134-138 | the locations `Patient/1/_history/1` and `Observation/2/_history/1` (stated as literals in the contract) yield `["Patient/1", "Observation/2"]` |
| `Upload.DirectoryHasNoEntries` | fhir_kindling/upload.py:64-66 | references requested on a directory result, which is keyed by file path, fail with `KeyError("entry")` unless a file is named `entry` |
| `Upload.PostBundle` | fhir_kindling/upload.py:142-152 | the bundle is posted to the API URL with the FHIR headers; for `ibm` the response headers are the result with no status check; otherwise a 4xx or 5xx status is an `HttpError`, a passing response yields its parsed body unchanged, and a passing response whose body is not JSON raises the decode error of `r.json()` |
| `Upload.IbmIgnoresStatus` | fhir_kindling/upload.py:145-147 | for `ibm` two responses with the same headers give the same result, whatever their status or body |
| `Upload.UploadFile` | fhir_kindling/upload.py:51-53 | one file of a directory: a failed load is that error, otherwise the file's bundle is uploaded as `_upload_bundle` does; on `ibm` it succeeds exactly when the load succeeds |
| `Upload.UploadDirectory` | fhir_kindling/upload.py:46-56 | the result has exactly one key per file found, the file's path, mapped to that file's upload response; it fails exactly when some file fails, with the error of the first failing file |
| `Upload.UploadBundle` | fhir_kindling/upload.py:42-69 | a bundle or bundle file gives its one response, or the error of its load or upload, and a directory the per-file map; with `references` set the result is the pair (response, references extracted from it), otherwise the response alone, and a failed extraction passes on its own error; for `ibm` the references are empty; without references (or on `ibm`) a directory upload succeeds exactly when every file uploads, and any failing directory returns the error of its first failing file; a directory whose files all upload, asked for references on a non-ibm server, fails with `KeyError("entry")` unless a file is named `entry` |
| `Upload.ResourceUrl` | fhir_kindling/upload.py:95 | the upload URL is the base URL, then one `/`, then the resource type, character for character |
| `Upload.ResourceUrlSegments` | fhir_kindling/upload.py:95 | the upload URL is the base URL followed by `/` and the resource type, so its segments are the base URL's segments followed by the type |
| `Upload.UploadResource` | fhir_kindling/upload.py:94-122 | the resource is posted to `{apiUrl}/{resourceType}`; for `ibm` the headers are returned with no status check and the reference comes from the `location` header, whose error is passed on; otherwise a 4xx or 5xx status is an `HttpError`, a non-JSON body the decode error, the parsed body is returned, and the reference comes from its `resourceType` and `id`, whose lookup error is passed on; a reference is paired with the response exactly when it was asked for |

## Left out

- `requests.post` does the network I/O and is modelled by the `Http.Poster` function value. `r.text`, `r.json()` and `raise_for_status` belong to the HTTP client and read the response already received; `r.json()` and `raise_for_status` are modelled by `Http.CheckedBody`, `r.text` only feeds output. Connection errors and timeouts are not modelled.
- `generate_auth` (`fhir_kindling/auth.py`) is not part of this model. The credential is a parameter, already resolved, so precedence between token, basic auth and environment variables is not modelled.
- `load_bundle` and `validate_bundle` (`fhir_kindling/serde.py`) are not part of this model. Loading is the `Upload.Loader` function value, which may fail.
- File-system globbing (`Path.glob("**/*")`, `is_file`, `is_dir`) is not modelled. A directory arrives as `Upload.BundleSource.Directory` with the list of regular files found, in order.
- The `fhir.resources` models (`Bundle`, `Reference`, `.json()`, `.dict()`) belong to a foreign library. Bundles and resources are JSON values, and a reference is a record of two strings.
- `Http.Poster` is a fixed function of the request: identical requests always get identical responses, and a later upload cannot depend on an earlier one. The claim that each directory key maps to that file's upload response rests on this; server state changed by earlier posts is not modelled.
- The `print`/`pprint` calls and the `__main__` demo block are output only.
- `Upload.BodyReference`: a `resourceType` or `id` that is not a JSON string gives the error `NonStringField`. Python would format it with `str()`, and the pydantic `Reference` model might coerce or refuse it. That library is not modelled.
- `Upload.IbmReference`: the `location` header name is matched exactly. requests' case-insensitive header lookup is not modelled.
- `Upload.UploadDirectory`: the result is a `map`, so the insertion order of the Python dict is not kept.
- `PyJson.Iterate`: iterating a non-empty dict raises `TypeError` at once. In Python the loop visits the dict's string keys, and the first `key["response"]` raises that same `TypeError`, so the outcome is the same. JSON numbers are integers only.
- `cli.py` is left out. It holds interactive prompts, YAML loading and file writing, and its authentication-warning condition is a garbled boolean.
- `app/backend/api/api.py` only registers FastAPI routers.
