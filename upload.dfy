/** The upload module of fhir_kindling: request headers, the per-server handling of upload
    responses, reference construction, and the dispatch of `upload_bundle` and `upload_resource`.
    The network call and the bundle loader are function values passed in by the caller. */
module Upload {
  import opened Wrappers
  import Py
  import opened PyJson
  import opened Http

  // ---------------------------------------------------------------------------------------------
  // Values

  /** A reference to a created resource: `Type/id` and the resource type. */
  datatype Reference = Reference(reference: string, resourceType: string)

  /** A single resource to upload: its resource type and its JSON content (`resource.dict()`). */
  datatype Resource = Resource(resourceType: string, content: Json)

  /** What one upload yields: the parsed JSON body, or for an ibm server the raw response headers. */
  datatype ServerResponse = Parsed(body: Json) | RawHeaders(headers: Headers)

  /** What `upload_bundle` yields before references: one response, or one per file of a directory. */
  datatype BundleResponse = Single(response: ServerResponse) | PerFile(responses: map<string, ServerResponse>)

  /** A response alone, or paired with references when the caller asked for them. */
  datatype Answer<R, X> = Plain(response: R) | Paired(response: R, extra: X)

  /** The `bundle` argument of `upload_bundle`: a bundle in memory, the path of one bundle file, or
      a directory with the regular files found under it (in the order the file system lists them). */
  datatype BundleSource = InMemory(bundle: Json) | File(path: string) | Directory(path: string, files: seq<string>)

  /** `load_bundle`: the bundle stored in a file, or the error it raises. */
  type Loader = string -> Result<Json>

  // ---------------------------------------------------------------------------------------------
  // Headers

  const ContentType := "Content-Type"
  const FhirJson := "application/fhir+json"
  const FhirHeaders: Headers := map[ContentType := FhirJson]

  /** `generate_fhir_headers`: both branches set the same single header, so every server type,
      blaze included, gets exactly `Content-Type: application/fhir+json`. */
  method GenerateFhirHeaders(serverType: string) returns (headers: Headers)
    ensures headers.Keys == {ContentType} && headers[ContentType] == FhirJson
    ensures headers == FhirHeaders
  {
    headers := map[];
    if serverType == "blaze" {
      headers := headers[ContentType := FhirJson];
    } else {
      headers := headers[ContentType := FhirJson];
    }
  }

  // ---------------------------------------------------------------------------------------------
  // References

  /** The bundle-entry rule: `"/".join(location.split("/")[:2])`. */
  function ReferenceFromLocation(location: string): (r: string)
    ensures r <= location
  {
    var parts := Py.Split(location);
    Py.JoinSplit(location);
    if |parts| > 2 then
      Py.JoinPrefix(parts, 2);
      Py.Join(Py.Take(parts, 2))
    else
      Py.Join(Py.Take(parts, 2))
  }

  /** The reference is a prefix of the location, and when it is shorter it stops just before a slash. */
  lemma ReferenceIsPrefix(location: string)
    ensures ReferenceFromLocation(location) <= location
    ensures ReferenceFromLocation(location) != location ==> ReferenceFromLocation(location) + "/" <= location
  {
    var parts := Py.Split(location);
    Py.JoinSplit(location);
    if |parts| > 2 {
      Py.JoinPrefix(parts, 2);
    }
  }

  /** The reference keeps the first slash of the location, if any, and no other. */
  lemma ReferenceSlashCount(location: string)
    ensures Py.Count(ReferenceFromLocation(location), '/') == (if Py.Count(location, '/') == 0 then 0 else 1)
  {
    var parts := Py.Split(location);
    Py.SplitLength(location);
    var kept := Py.Take(parts, 2);
    assert forall k :: 0 <= k < |kept| ==> kept[k] == parts[k];
    Py.JoinCount(kept);
  }

  /** A location with at most one slash, in particular one with none, is its own reference. */
  lemma ReferenceOfFewSlashes(location: string)
    requires Py.Count(location, '/') <= 1
    ensures ReferenceFromLocation(location) == location
  {
    Py.SplitLength(location);
    Py.JoinSplit(location);
  }

  /** Applying the rule to a reference gives the reference back. */
  lemma ReferenceIdempotent(location: string)
    ensures ReferenceFromLocation(ReferenceFromLocation(location)) == ReferenceFromLocation(location)
  {
    ReferenceSlashCount(location);
    ReferenceOfFewSlashes(ReferenceFromLocation(location));
  }

  /** A versioned FHIR location `base/Type/id/_history/vid`, as its slash-separated segments joined. */
  function FhirLocation(base: seq<string>, resourceType: string, id: string, version: string): string
  {
    Py.Join(base + [resourceType, id, "_history", version])
  }

  /** A top-level FHIR location spelled out character by character. */
  lemma FhirLocationSpelled(resourceType: string, id: string, version: string)
    ensures FhirLocation([], resourceType, id, version) == resourceType + "/" + id + "/_history/" + version
  {
    var segments := [resourceType, id, "_history", version];
    assert [] + segments == segments;
    assert segments[1..][1..][1..] == [version];
    assert Py.Join(segments[1..][1..]) == "_history" + "/" + version;
    assert Py.Join(segments[1..]) == id + "/" + ("_history" + "/" + version);
  }

  predicate SlashFree(segments: seq<string>)
  {
    forall k :: 0 <= k < |segments| ==> '/' !in segments[k]
  }

  /** Joined slash-free segments, at least two of them, give back the first two joined. */
  lemma ReferenceOfSegments(segments: seq<string>)
    requires |segments| >= 2 && SlashFree(segments)
    ensures ReferenceFromLocation(Py.Join(segments)) == segments[0] + "/" + segments[1]
  {
    Py.SplitJoin(segments);
    var kept := Py.Take(segments, 2);
    assert kept == [segments[0], segments[1]];
    assert kept[1..] == [segments[1]];
    assert Py.Join(kept) == segments[0] + "/" + Py.Join([segments[1]]);
    assert ReferenceFromLocation(Py.Join(segments)) == Py.Join(kept);
  }

  /** A bundle-entry location `Type/id/_history/vid` gives the reference `Type/id`. */
  lemma ReferenceOfFhirLocation(resourceType: string, id: string, version: string)
    requires '/' !in resourceType && '/' !in id && '/' !in version
    ensures ReferenceFromLocation(FhirLocation([], resourceType, id, version)) == resourceType + "/" + id
  {
    var segments := [resourceType, id, "_history", version];
    assert [] + segments == segments;
    assert '/' !in "_history";
    assert SlashFree(segments);
    ReferenceOfSegments(segments);
  }

  /** ibm: `seg[-4] + "/" + seg[-3]` and type `seg[-4]` of the `location` header split on "/";
      a missing header is a KeyError and fewer than four segments an IndexError. */
  function IbmReference(headers: Headers): (r: Result<Reference>)
    ensures "location" !in headers ==> r == Err(KeyError("location"))
    ensures "location" in headers ==> (r.Ok? <==> Py.Count(headers["location"], '/') >= 3)
    ensures "location" in headers && r.Err? ==> r.error == IndexError
    ensures r.Ok? ==> var segments := Py.Split(headers["location"]);
                      && |segments| >= 4
                      && r.value.resourceType == segments[|segments| - 4]
                      && r.value.reference == segments[|segments| - 4] + "/" + segments[|segments| - 3]
  {
    if "location" !in headers then Err(KeyError("location"))
    else
      var segments := Py.Split(headers["location"]);
      Py.SplitLength(headers["location"]);
      if |segments| < 4 then Err(IndexError)
      else
        var resourceType, id := segments[|segments| - 4], segments[|segments| - 3];
        Ok(Reference(resourceType + "/" + id, resourceType))
  }

  /** An ibm `location` header `base/Type/id/marker/vid` with slash-free segments gives the
      reference `Type/id` of type `Type`, whatever the base and the marker (`_history` in a FHIR
      server's answer); it is the reference the bundle-entry rule takes from `Type/id/marker/vid`.
      With `Py.JoinSplit`, every header with at least three slashes has this form. */
  lemma {:induction false} IbmReferenceOfLocation(headers: Headers, base: seq<string>, resourceType: string,
                                                  id: string, marker: string, version: string)
    requires SlashFree(base) && SlashFree([resourceType, id, marker, version])
    requires "location" in headers && headers["location"] == Py.Join(base + [resourceType, id, marker, version])
    ensures IbmReference(headers) == Ok(Reference(resourceType + "/" + id, resourceType))
    ensures ReferenceFromLocation(Py.Join([resourceType, id, marker, version])) == IbmReference(headers).value.reference
  {
    var tail := [resourceType, id, marker, version];
    var segments := base + tail;
    assert forall k :: |base| <= k < |segments| ==> segments[k] == tail[k - |base|];
    assert SlashFree(segments);
    Py.SplitJoin(segments);
    ReferenceOfSegments(tail);
  }

  /** Non-ibm: `resourceType` and `id` of the created resource's JSON body. */
  function BodyReference(body: Json): (r: Result<Reference>)
    ensures r.Ok? <==> body.JObject? && "resourceType" in body.fields && "id" in body.fields
                       && body.fields["resourceType"].JString? && body.fields["id"].JString?
    ensures r.Ok? ==> r.value.resourceType == body.fields["resourceType"].s
                      && r.value.reference == body.fields["resourceType"].s + "/" + body.fields["id"].s
    ensures !body.JObject? ==> r == Err(TypeError)
    ensures body.JObject? && "resourceType" !in body.fields ==> r == Err(KeyError("resourceType"))
    ensures body.JObject? && "resourceType" in body.fields && "id" !in body.fields ==> r == Err(KeyError("id"))
  {
    var resourceType :- Subscript(body, "resourceType");
    var id :- Subscript(body, "id");
    if !resourceType.JString? then Err(NonStringField("resourceType"))
    else if !id.JString? then Err(NonStringField("id"))
    else Ok(Reference(resourceType.s + "/" + id.s, resourceType.s))
  }

  /** A reference built from a slash-free type and id splits back into exactly those two, and the
      bundle-entry rule leaves it unchanged. */
  lemma BodyReferenceRoundTrip(body: Json)
    requires BodyReference(body).Ok?
    requires '/' !in body.fields["resourceType"].s && '/' !in body.fields["id"].s
    ensures Py.Split(BodyReference(body).value.reference) == [body.fields["resourceType"].s, body.fields["id"].s]
    ensures ReferenceFromLocation(BodyReference(body).value.reference) == BodyReference(body).value.reference
  {
    var resourceType, id := body.fields["resourceType"].s, body.fields["id"].s;
    Py.SplitJoin([resourceType, id]);
    Py.JoinCount([resourceType, id]);
    ReferenceOfFewSlashes(resourceType + "/" + id);
  }

  // ---------------------------------------------------------------------------------------------
  // Reference extraction from a bundle response

  /** A response as the Python dict the extraction subscripts: a parsed body as it is, headers as a
      dict of strings, and a directory result as the dict from file path to response. */
  function ResponseAsJson(response: ServerResponse): Json
  {
    match response
    case Parsed(body) => body
    case RawHeaders(headers) => JObject(map key | key in headers :: JString(headers[key]))
  }

  function BundleAsJson(response: BundleResponse): Json
  {
    match response
    case Single(single) => ResponseAsJson(single)
    case PerFile(responses) => JObject(map path | path in responses :: ResponseAsJson(responses[path]))
  }

  /** The entries the extraction loop visits: `response["entry"]`, iterated. */
  function Entries(response: BundleResponse): (r: Result<seq<Json>>)
    ensures !BundleAsJson(response).JObject? ==> r == Err(TypeError)
    ensures BundleAsJson(response).JObject? && "entry" !in BundleAsJson(response).fields ==> r == Err(KeyError("entry"))
    ensures var json := BundleAsJson(response);
            (json.JObject? && "entry" in json.fields && json.fields["entry"].JArray?) ==> r == Ok(json.fields["entry"].items)
    ensures r.Err? ==> r.error == TypeError || r.error == KeyError("entry")
    ensures var json := BundleAsJson(response);
            json.JObject? && "entry" in json.fields ==> r == Iterate(json.fields["entry"])
  {
    var entry :- Subscript(BundleAsJson(response), "entry");
    Iterate(entry)
  }

  /** `entry["response"]["location"]`, which must be a string for `.split` to apply. */
  function LocationOf(entry: Json): (r: Result<string>)
    ensures r.Ok? <==> && entry.JObject? && "response" in entry.fields
                       && entry.fields["response"].JObject? && "location" in entry.fields["response"].fields
                       && entry.fields["response"].fields["location"].JString?
    ensures r.Ok? ==> r.value == entry.fields["response"].fields["location"].s
    ensures !entry.JObject? ==> r == Err(TypeError)
    ensures entry.JObject? && "response" !in entry.fields ==> r == Err(KeyError("response"))
    ensures entry.JObject? && "response" in entry.fields && !entry.fields["response"].JObject? ==> r == Err(TypeError)
    ensures (entry.JObject? && "response" in entry.fields && entry.fields["response"].JObject?
             && "location" !in entry.fields["response"].fields) ==> r == Err(KeyError("location"))
    ensures (entry.JObject? && "response" in entry.fields && entry.fields["response"].JObject?
             && "location" in entry.fields["response"].fields
             && !entry.fields["response"].fields["location"].JString?) ==> r == Err(AttributeError)
  {
    var response :- Subscript(entry, "response");
    var location :- Subscript(response, "location");
    if location.JString? then Ok(location.s) else Err(AttributeError)
  }

  /** One reference per entry, in entry order; the first entry without a string location decides
      the error. */
  function ReferencesOf(entries: seq<Json>): (r: Result<seq<string>>)
    ensures r.Ok? <==> forall k :: 0 <= k < |entries| ==> LocationOf(entries[k]).Ok?
    ensures r.Ok? ==> |r.value| == |entries|
    ensures r.Ok? ==> forall k :: 0 <= k < |entries| ==> r.value[k] == ReferenceFromLocation(LocationOf(entries[k]).value)
    ensures r.Err? ==> exists k :: 0 <= k < |entries| && LocationOf(entries[k]) == Err(r.error)
                                   && forall m :: 0 <= m < k ==> LocationOf(entries[m]).Ok?
  {
    if entries == [] then Ok([])
    else
      var location :- LocationOf(entries[0]);
      var rest :- ReferencesOf(entries[1..]);
      assert forall k :: 1 <= k < |entries| ==> entries[k] == entries[1..][k - 1];
      Ok([ReferenceFromLocation(location)] + rest)
  }

  /** `_get_references_from_bundle_response`, as a specification. */
  function ExtractReferences(response: BundleResponse, serverType: string): (r: Result<seq<string>>)
    ensures serverType == "ibm" ==> r == Ok([])
    ensures serverType != "ibm" && r.Ok? ==> Entries(response).Ok? && |r.value| == |Entries(response).value|
    ensures serverType != "ibm" && r.Ok? ==>
              forall k :: 0 <= k < |r.value| ==> LocationOf(Entries(response).value[k]).Ok?
                                                  && r.value[k] == ReferenceFromLocation(LocationOf(Entries(response).value[k]).value)
    ensures serverType != "ibm" && Entries(response).Err? ==> r == Err(Entries(response).error)
    ensures serverType != "ibm" ==>
              (r.Ok? <==> Entries(response).Ok?
                          && forall k :: 0 <= k < |Entries(response).value| ==> LocationOf(Entries(response).value[k]).Ok?)
    ensures serverType != "ibm" && Entries(response).Ok? && r.Err? ==>
              var entries := Entries(response).value;
              exists k :: 0 <= k < |entries| && LocationOf(entries[k]) == Err(r.error)
                          && forall m :: 0 <= m < k ==> LocationOf(entries[m]).Ok?
  {
    if serverType == "ibm" then Ok([])
    else
      var entries :- Entries(response);
      ReferencesOf(entries)
  }

  /** `_get_references_from_bundle_response`: for ibm no references whatever the response;
      otherwise one reference per entry, appended in order, from each entry's location. */
  method GetReferencesFromBundleResponse(response: BundleResponse, serverType: string)
    returns (r: Result<seq<string>>)
    ensures r == ExtractReferences(response, serverType)
  {
    var references: seq<string> := [];
    if serverType == "ibm" {
      return Ok(references);
    }
    var entries :- Entries(response);
    var k := 0;
    while k < |entries|
      invariant 0 <= k <= |entries|
      invariant |references| == k
      invariant forall m :: 0 <= m < k ==> (LocationOf(entries[m]).Ok?
                                            && references[m] == ReferenceFromLocation(LocationOf(entries[m]).value))
    {
      var location :- LocationOf(entries[k]);
      references := references + [ReferenceFromLocation(location)];
      k := k + 1;
    }
    assert ReferencesOf(entries).value == references;
    return Ok(references);
  }

  /** A bundle-response entry whose `response.location` is the given string. */
  function EntryWithLocation(location: string): Json
  {
    JObject(map["response" := JObject(map["location" := JString(location)])])
  }

  /** The bundle response whose entries carry the given locations. */
  function ResponseWithLocations(locations: seq<string>): BundleResponse
  {
    Single(Parsed(JObject(map["entry" := JArray(seq(|locations|, k requires 0 <= k < |locations| =>
                                                         EntryWithLocation(locations[k])))])))
  }

  /** Every entry that carries a location gives the reference of that location. */
  lemma {:induction false} ExtractFromLocations(locations: seq<string>, serverType: string)
    requires serverType != "ibm"
    ensures ExtractReferences(ResponseWithLocations(locations), serverType)
            == Ok(seq(|locations|, k requires 0 <= k < |locations| => ReferenceFromLocation(locations[k])))
  {
    var entries := seq(|locations|, k requires 0 <= k < |locations| => EntryWithLocation(locations[k]));
    assert Entries(ResponseWithLocations(locations)) == Ok(entries);
    assert forall k :: 0 <= k < |entries| ==> LocationOf(entries[k]) == Ok(locations[k]);
    var refs := ReferencesOf(entries);
    assert refs.Ok?;
    assert refs.value == seq(|locations|, k requires 0 <= k < |locations| => ReferenceFromLocation(locations[k]));
  }

  /** The two example locations, spelled out. */
  lemma ExampleLocationsSpelled(first: string, second: string)
    requires first == FhirLocation([], "Patient", "1", "1")
    requires second == FhirLocation([], "Observation", "2", "1")
    ensures first == "Patient/1/_history/1" && second == "Observation/2/_history/1"
  {
    FhirLocationSpelled("Patient", "1", "1");
    assert "Patient" + "/" + "1" + "/_history/" + "1" == "Patient/1/_history/1";
    FhirLocationSpelled("Observation", "2", "1");
    assert "Observation" + "/" + "2" + "/_history/" + "1" == "Observation/2/_history/1";
  }

  /** The references of the two example locations. */
  lemma ExampleReferences(first: string, second: string)
    requires first == FhirLocation([], "Patient", "1", "1")
    requires second == FhirLocation([], "Observation", "2", "1")
    ensures ReferenceFromLocation(first) == "Patient/1" && ReferenceFromLocation(second) == "Observation/2"
  {
    ReferenceOfFhirLocation("Patient", "1", "1");
    assert "Patient" + "/" + "1" == "Patient/1";
    ReferenceOfFhirLocation("Observation", "2", "1");
    assert "Observation" + "/" + "2" == "Observation/2";
  }

  /** The two-entry bundle response of a create transaction, with locations
      `Patient/1/_history/1` and `Observation/2/_history/1`, yields `Patient/1` and `Observation/2`. */
  lemma ExtractExample(first: string, second: string)
    requires first == FhirLocation([], "Patient", "1", "1")
    requires second == FhirLocation([], "Observation", "2", "1")
    ensures first == "Patient/1/_history/1" && second == "Observation/2/_history/1"
    ensures ExtractReferences(ResponseWithLocations([first, second]), "hapi") == Ok(["Patient/1", "Observation/2"])
  {
    ExampleLocationsSpelled(first, second);
    ExampleReferences(first, second);
    ExtractFromLocations([first, second], "hapi");
    assert seq(2, k requires 0 <= k < 2 => ReferenceFromLocation([first, second][k])) == ["Patient/1", "Observation/2"];
  }

  /** A directory result is keyed by file path, so unless a file is literally named `entry`,
      asking it for references fails with KeyError. */
  lemma DirectoryHasNoEntries(responses: map<string, ServerResponse>, serverType: string)
    requires serverType != "ibm" && "entry" !in responses
    ensures ExtractReferences(PerFile(responses), serverType) == Err(KeyError("entry"))
  {
  }

  // ---------------------------------------------------------------------------------------------
  // Uploads

  /** `_upload_bundle`: post the bundle to the API base URL with the FHIR headers. An ibm server's
      response headers are the result whatever the status; any other server's response must pass
      the status check, and then its parsed body is the result. */
  function PostBundle(bundle: Json, apiUrl: string, auth: Credential, serverType: string, post: Poster)
    : (r: Result<ServerResponse>)
    ensures var response := post(Request(apiUrl, FhirHeaders, auth, bundle));
            && (serverType == "ibm" ==> r == Ok(RawHeaders(response.headers)))
            && (serverType != "ibm" && RaisesForStatus(response.status) ==> r == Err(HttpError(response.status)))
            && (serverType != "ibm" ==> (r.Ok? <==> CheckedBody(response).Ok?))
            && (serverType != "ibm" && r.Ok? ==> r.value == Parsed(response.body.value))
            && (serverType != "ibm" && CheckedBody(response).Err? ==> r == Err(CheckedBody(response).error))
  {
    var response := post(Request(apiUrl, FhirHeaders, auth, bundle));
    if serverType == "ibm" then
      Ok(RawHeaders(response.headers))
    else
      var body :- CheckedBody(response);
      Ok(Parsed(body))
  }

  /** An ibm result does not depend on the status or the body of the response. */
  lemma IbmIgnoresStatus(bundle: Json, apiUrl: string, auth: Credential, post: Poster, post': Poster)
    requires post(Request(apiUrl, FhirHeaders, auth, bundle)).headers == post'(Request(apiUrl, FhirHeaders, auth, bundle)).headers
    ensures PostBundle(bundle, apiUrl, auth, "ibm", post) == PostBundle(bundle, apiUrl, auth, "ibm", post')
  {
  }

  /** One file of a bundle directory: `load_bundle` it, then `_upload_bundle` it. */
  function UploadFile(path: string, apiUrl: string, auth: Credential, serverType: string, load: Loader, post: Poster)
    : (r: Result<ServerResponse>)
    ensures load(path).Err? ==> r == Err(load(path).error)
    ensures load(path).Ok? ==> r == PostBundle(load(path).value, apiUrl, auth, serverType, post)
    ensures serverType == "ibm" ==> (r.Ok? <==> load(path).Ok?)
  {
    var bundle :- load(path);
    PostBundle(bundle, apiUrl, auth, serverType, post)
  }

  /** The directory branch of `upload_bundle`: every file is loaded and uploaded in order, and its
      response stored under its path. The first file that fails aborts the whole directory. */
  method UploadDirectory(files: seq<string>, apiUrl: string, auth: Credential, serverType: string,
                         load: Loader, post: Poster)
    returns (r: Result<map<string, ServerResponse>>)
    ensures r.Ok? <==> forall k :: 0 <= k < |files| ==> UploadFile(files[k], apiUrl, auth, serverType, load, post).Ok?
    ensures r.Ok? ==> r.value.Keys == set f | f in files
    ensures r.Ok? ==> forall f :: f in r.value ==> UploadFile(f, apiUrl, auth, serverType, load, post) == Ok(r.value[f])
    ensures r.Err? ==> exists k :: 0 <= k < |files| && UploadFile(files[k], apiUrl, auth, serverType, load, post) == Err(r.error)
                                   && forall m :: 0 <= m < k ==> UploadFile(files[m], apiUrl, auth, serverType, load, post).Ok?
  {
    var responses: map<string, ServerResponse> := map[];
    for k := 0 to |files|
      invariant forall m :: 0 <= m < k ==> UploadFile(files[m], apiUrl, auth, serverType, load, post).Ok?
      invariant responses.Keys == set f | f in files[..k]
      invariant forall f :: f in responses ==> UploadFile(f, apiUrl, auth, serverType, load, post) == Ok(responses[f])
    {
      var bundle :- load(files[k]);
      var response :- PostBundle(bundle, apiUrl, auth, serverType, post);
      responses := responses[files[k] := response];
      assert files[..k + 1] == files[..k] + [files[k]];
    }
    assert files[..|files|] == files;
    return Ok(responses);
  }

  /** The upload of a bundle given in memory or as one file. */
  function UploadOne(source: BundleSource, apiUrl: string, auth: Credential, serverType: string, load: Loader, post: Poster)
    : Result<ServerResponse>
    requires !source.Directory?
  {
    match source
    case InMemory(bundle) => PostBundle(bundle, apiUrl, auth, serverType, post)
    case File(path) => UploadFile(path, apiUrl, auth, serverType, load, post)
  }

  /** `upload_bundle`: upload a bundle in memory, a bundle file, or every file of a directory
      (a map from each file path to its response), then, when `references` is set, pair the
      result with the references extracted from it. The `validate` flag is accepted and unused. */
  method UploadBundle(source: BundleSource, apiUrl: string, validate: bool, auth: Credential,
                      serverType: string, references: bool, load: Loader, post: Poster)
    returns (r: Result<Answer<BundleResponse, seq<string>>>)
    ensures r.Ok? ==> (r.value.Paired? <==> references)
    ensures r.Ok? && r.value.Paired? ==> ExtractReferences(r.value.response, serverType) == Ok(r.value.extra)
    ensures r.Ok? && r.value.Paired? && serverType == "ibm" ==> r.value.extra == []
    ensures !source.Directory? ==>
              var one := UploadOne(source, apiUrl, auth, serverType, load, post);
              && (one.Err? ==> r == Err(one.error))
              && (one.Ok? && !references ==> r == Ok(Plain(Single(one.value))))
              && (one.Ok? && references ==> (r.Ok? <==> ExtractReferences(Single(one.value), serverType).Ok?))
              && (r.Ok? ==> r.value.response == Single(one.value))
              && (one.Ok? && references && ExtractReferences(Single(one.value), serverType).Err? ==>
                    r == Err(ExtractReferences(Single(one.value), serverType).error))
    ensures source.Directory? && r.Ok? ==>
              && r.value.response.PerFile?
              && r.value.response.responses.Keys == set f | f in source.files
              && forall f :: f in r.value.response.responses ==>
                   UploadFile(f, apiUrl, auth, serverType, load, post) == Ok(r.value.response.responses[f])
    ensures source.Directory? && (!references || serverType == "ibm") ==>
              (r.Ok? <==> forall k :: 0 <= k < |source.files| ==> UploadFile(source.files[k], apiUrl, auth, serverType, load, post).Ok?)
    ensures source.Directory? ==>
              ((exists k :: 0 <= k < |source.files| && UploadFile(source.files[k], apiUrl, auth, serverType, load, post).Err?) ==> r.Err?)
    ensures source.Directory? && (exists k :: 0 <= k < |source.files| && UploadFile(source.files[k], apiUrl, auth, serverType, load, post).Err?) ==>
              exists k :: 0 <= k < |source.files| && UploadFile(source.files[k], apiUrl, auth, serverType, load, post) == Err(r.error)
                          && forall m :: 0 <= m < k ==> UploadFile(source.files[m], apiUrl, auth, serverType, load, post).Ok?
    ensures source.Directory? && references && serverType != "ibm" && "entry" !in source.files ==> r.Err?
    ensures source.Directory? && references && serverType != "ibm" && "entry" !in source.files
            && (forall k :: 0 <= k < |source.files| ==> UploadFile(source.files[k], apiUrl, auth, serverType, load, post).Ok?) ==>
              r == Err(KeyError("entry"))
  {
    var response: BundleResponse;
    match source {
      case Directory(_, files) =>
        var responses :- UploadDirectory(files, apiUrl, auth, serverType, load, post);
        response := PerFile(responses);
      case File(path) =>
        var bundle :- load(path);
        var one :- PostBundle(bundle, apiUrl, auth, serverType, post);
        response := Single(one);
      case InMemory(bundle) =>
        var one :- PostBundle(bundle, apiUrl, auth, serverType, post);
        response := Single(one);
    }
    if references {
      var extracted :- GetReferencesFromBundleResponse(response, serverType);
      return Ok(Paired(response, extracted));
    }
    return Ok(Plain(response));
  }

  /** The URL a single resource is posted to: the API base URL, a slash, and the resource type. */
  function ResourceUrl(apiUrl: string, resourceType: string): (r: string)
    ensures |r| == |apiUrl| + 1 + |resourceType|
    ensures r[..|apiUrl|] == apiUrl && r[|apiUrl|] == '/' && r[|apiUrl| + 1..] == resourceType
  {
    apiUrl + "/" + resourceType
  }

  /** The resource type is the last segment of its upload URL, after the segments of the base URL. */
  lemma ResourceUrlSegments(apiUrl: string, resourceType: string)
    requires '/' !in resourceType
    ensures Py.Split(ResourceUrl(apiUrl, resourceType)) == Py.Split(apiUrl) + [resourceType]
  {
    Py.SplitConcat(apiUrl, resourceType);
    Py.SplitSlashFree(resourceType);
  }

  /** The request `upload_resource` posts. */
  function ResourceRequest(resource: Resource, apiUrl: string, auth: Credential): Request
  {
    Request(ResourceUrl(apiUrl, resource.resourceType), FhirHeaders, auth, resource.content)
  }

  /** `upload_resource`: post one resource to `{apiUrl}/{resourceType}`. An ibm server's response
      headers are the result with no status check, and the reference comes from its `location`
      header; any other server's response must pass the status check, its parsed body is the result,
      and the reference comes from the body's `resourceType` and `id`. */
  function UploadResource(resource: Resource, apiUrl: string, auth: Credential, serverType: string,
                          wantReference: bool, post: Poster)
    : (r: Result<Answer<ServerResponse, Reference>>)
    ensures var response := post(ResourceRequest(resource, apiUrl, auth));
            && (r.Ok? ==> (r.value.Paired? <==> wantReference))
            && (serverType == "ibm" ==>
                  && (r.Ok? <==> !wantReference || IbmReference(response.headers).Ok?)
                  && (r.Ok? ==> r.value.response == RawHeaders(response.headers))
                  && (r.Ok? && wantReference ==> r.value.extra == IbmReference(response.headers).value)
                  && (r.Err? ==> r == Err(IbmReference(response.headers).error)))
            && (serverType != "ibm" ==>
                  && (RaisesForStatus(response.status) ==> r == Err(HttpError(response.status)))
                  && (r.Ok? ==> CheckedBody(response).Ok? && r.value.response == Parsed(response.body.value))
                  && (CheckedBody(response).Ok? ==>
                        (r.Ok? <==> !wantReference || BodyReference(response.body.value).Ok?))
                  && (r.Ok? && wantReference ==> r.value.extra == BodyReference(response.body.value).value)
                  && (CheckedBody(response).Err? ==> r == Err(CheckedBody(response).error))
                  && (CheckedBody(response).Ok? && wantReference && BodyReference(response.body.value).Err? ==>
                        r == Err(BodyReference(response.body.value).error)))
  {
    var response := post(ResourceRequest(resource, apiUrl, auth));
    if serverType == "ibm" then
      if wantReference then
        var reference :- IbmReference(response.headers);
        Ok(Paired(RawHeaders(response.headers), reference))
      else
        Ok(Plain(RawHeaders(response.headers)))
    else
      var body :- CheckedBody(response);
      if wantReference then
        var reference :- BodyReference(body);
        Ok(Paired(Parsed(body), reference))
      else
        Ok(Plain(Parsed(body)))
  }
}
