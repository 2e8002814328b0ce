/**
 * The upload authorisation endpoint (`POST /api/upload`): validates the
 * requested content type and size in a fixed order and, only when all checks
 * pass, asks the storage client to presign an upload for a fresh key.
 */
module UploadRoute {
  import opened Wrappers
  import R2Client

  /** Content types accepted, compared exactly (case-sensitive). */
  const AllowedTypes: seq<string> := ["image/jpeg", "image/jpg", "image/png", "image/gif", "image/webp"]
  /** Largest accepted size in bytes (10 MiB, inclusive). */
  const MaxFileSize: int := 10 * 1024 * 1024

  const MsgTypeRequired: string := "Content type is required"
  const MsgInvalidType: string := "Invalid file type. Only JPG, PNG, GIF, and WebP are allowed."
  const MsgTooLarge: string := "File too large. Maximum size is 10MB."
  const MsgServerError: string := "Failed to generate upload URL. Please try again."

  /**
   * The `contentType` field of the request body as JavaScript sees it:
   * `Missing` is any falsy non-string value (absent, null, false, 0),
   * `Text` a string (the empty string is falsy too), `NonText` any truthy
   * non-string value (a number, `true`, an object or array).
   */
  datatype TypeField = Missing | Text(s: string) | NonText

  /**
   * The `size` field as the `>` comparison sees it after numeric conversion:
   * `NaN` (absent field, non-numeric text) or a number.
   */
  datatype SizeField = NaN | Number(n: real)

  /**
   * The request body: `Unreadable` when parsing it as JSON throws or it is
   * JSON `null` (destructuring then throws); otherwise its two fields.
   */
  datatype Payload = Unreadable | Fields(contentType: TypeField, size: SizeField)

  datatype ResponseBody =
    | Created(uploadUrl: string, key: string, url: string)   // `{success: true, uploadUrl, key, url}`
    | ErrorBody(error: string)

  datatype Response = Response(status: int, body: ResponseBody)

  /** The response, and the put command that reached the signer, if any did. */
  datatype Handled = Handled(response: Response, signed: Option<R2Client.PutObjectRequest>)

  predicate Truthy(f: TypeField)
  {
    f.NonText? || (f.Text? && f.s != "")
  }

  predicate IsAllowed(f: TypeField)
  {
    f.Text? && f.s in AllowedTypes
  }

  predicate Oversized(z: SizeField)
  {
    z.Number? && z.n > MaxFileSize as real
  }

  /** A character of the URL-safe alphabet the key generator draws from. */
  predicate UrlSafe(c: char)
  {
    ('A' <= c <= 'Z') || ('a' <= c <= 'z') || ('0' <= c <= '9') || c == '_' || c == '-'
  }

  /** A key as the generator produces it: ten URL-safe characters. */
  predicate IsObjectKey(key: string)
  {
    |key| == 10 && forall i :: 0 <= i < |key| ==> UrlSafe(key[i])
  }

  function Reject(message: string): Response
  {
    Response(400, ErrorBody(message))
  }

  /**
   * Handles one upload request. `key` is the freshly generated identifier and
   * `sign` the signing collaborator; any exception becomes a 500.
   */
  function Post(payload: Payload, key: string, env: R2Client.Env, sign: R2Client.Signer): (h: Handled)
    requires IsObjectKey(key)
    ensures h.response.status in {200, 400, 500}
    ensures h.response.status == 400 <==> h.response.body.ErrorBody? && h.response.body.error != MsgServerError
    // each rejection names exactly the first check that fails
    ensures h.response == Reject(MsgTypeRequired) <==> payload.Fields? && !Truthy(payload.contentType)
    ensures h.response == Reject(MsgInvalidType) <==>
              payload.Fields? && Truthy(payload.contentType) && !IsAllowed(payload.contentType)
    ensures h.response == Reject(MsgTooLarge) <==>
              payload.Fields? && IsAllowed(payload.contentType) && Oversized(payload.size)
    // the signer is reached only by requests that pass every check, with the request's key and type
    ensures h.signed.Some? <==> payload.Fields? && IsAllowed(payload.contentType) && !Oversized(payload.size)
    ensures h.signed.Some? ==>
              h.signed.value == R2Client.GeneratePresignedUpload(key, payload.contentType.s, env, sign).request
    ensures h.response.status == 200 <==> h.signed.Some? && sign(h.signed.value).Some?
    ensures h.response.status == 200 ==>
              h.response.body == Created(sign(h.signed.value).value, key, R2Client.BaseUrl(env) + "/" + key)
    ensures h.response.status == 500 <==> payload.Unreadable? || (h.signed.Some? && sign(h.signed.value).None?)
    ensures h.response.status == 500 ==> h.response.body == ErrorBody(MsgServerError)
  {
    match payload
    case Unreadable => Handled(Response(500, ErrorBody(MsgServerError)), None)
    case Fields(contentType, size) =>
      if !Truthy(contentType) then Handled(Reject(MsgTypeRequired), None)
      else if !IsAllowed(contentType) then Handled(Reject(MsgInvalidType), None)
      else if Oversized(size) then Handled(Reject(MsgTooLarge), None)
      else
        var presigning := R2Client.GeneratePresignedUpload(key, contentType.s, env, sign);
        match presigning.upload
        case None => Handled(Response(500, ErrorBody(MsgServerError)), Some(presigning.request))
        case Some(presigned) =>
          Handled(Response(200, Created(presigned.uploadUrl, presigned.key, presigned.publicUrl)), Some(presigning.request))
  }

  /**
   * A successful response carries a ten-character key that is the last path
   * segment of its public URL.
   */
  lemma CreatedKeyIsUrlSuffix(payload: Payload, key: string, env: R2Client.Env, sign: R2Client.Signer)
    requires IsObjectKey(key)
    requires Post(payload, key, env, sign).response.status == 200
    ensures |Post(payload, key, env, sign).response.body.key| == 10
    ensures R2Client.LastSegment(Post(payload, key, env, sign).response.body.url) ==
              Post(payload, key, env, sign).response.body.key
  {
    var url := Post(payload, key, env, sign).response.body.url;
    assert url == R2Client.PublicUrl(R2Client.BaseUrl(env), key);
    R2Client.KeyFromPublicUrl(R2Client.BaseUrl(env), key);
  }

  /** Size ceiling is inclusive and there is no lower bound or presence check on size. */
  lemma SizeBoundary(t: string, key: string, env: R2Client.Env, sign: R2Client.Signer, n: real)
    requires t in AllowedTypes && IsObjectKey(key)
    ensures Post(Fields(Text(t), Number(MaxFileSize as real)), key, env, sign).signed.Some?
    ensures Post(Fields(Text(t), NaN), key, env, sign).signed.Some?
    ensures n <= 0.0 ==> Post(Fields(Text(t), Number(n)), key, env, sign).signed.Some?
    ensures Post(Fields(Text(t), Number(MaxFileSize as real + 1.0)), key, env, sign).response == Reject(MsgTooLarge)
  {
  }

  /** An oversized request with a disallowed type is reported as a type error. */
  lemma TypeCheckPrecedesSizeCheck(key: string, env: R2Client.Env, sign: R2Client.Signer)
    requires IsObjectKey(key)
    ensures Post(Fields(Text("application/pdf"), Number(11.0 * 1024.0 * 1024.0)), key, env, sign).response
              == Reject(MsgInvalidType)
    ensures Post(Fields(Text("IMAGE/PNG"), Number(1024.0)), key, env, sign).response == Reject(MsgInvalidType)
    ensures Post(Fields(Text(""), Number(11.0 * 1024.0 * 1024.0)), key, env, sign).response == Reject(MsgTypeRequired)
  {
  }
}
