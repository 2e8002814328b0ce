/**
 * The object-storage client: composition of a presigned upload record around an
 * opaque signing call, and reading an object back with its content type.
 */
module R2Client {
  import opened Wrappers

  /** Cache directive attached to every uploaded object. */
  const CacheDirective: string := "public, max-age=31536000, immutable"
  /** Lifetime, in seconds, of a presigned upload URL. */
  const UploadExpirySeconds: nat := 60
  /** Public base URL used when no application URL is configured. */
  const DefaultBaseUrl: string := "http://localhost:3000"
  /** Content type reported for an object stored without one. */
  const DefaultContentType: string := "image/jpeg"
  /** Error raised when the storage response has no body. */
  const ImageNotFound: string := "Image not found"

  newtype byte = x: int | 0 <= x < 256

  /** The environment configuration this module reads: the bucket name and the public application URL. */
  datatype Env = Env(bucket: Option<string>, appUrl: Option<string>)

  /** A put-object command together with the expiry requested for its signature. */
  datatype PutObjectRequest = PutObjectRequest(
    bucket: Option<string>,
    key: string,
    contentType: string,
    cacheControl: string,
    expiresIn: nat)

  /**
   * The signing collaborator: the presigned URL for a command, or `None` when
   * signing throws (bad credentials, missing configuration).
   */
  type Signer = PutObjectRequest -> Option<string>

  datatype PresignedUpload = PresignedUpload(uploadUrl: string, key: string, publicUrl: string)

  /** The command handed to the signer and, when signing succeeded, the record returned. */
  datatype Presigning = Presigning(request: PutObjectRequest, upload: Option<PresignedUpload>)

  datatype GetObjectRequest = GetObjectRequest(bucket: Option<string>, key: string)

  /** What the storage service answers to a get-object command; both fields may be missing. */
  datatype GetObjectResponse = GetObjectResponse(body: Option<seq<byte>>, contentType: Option<string>)

  /** The storage service's `send`: a response, or the message of the error it threw. */
  type Fetcher = GetObjectRequest -> Result<GetObjectResponse, string>

  datatype StoredImage = StoredImage(buffer: seq<byte>, contentType: string)

  /** The public base URL: the configured application URL, unless it is absent or empty. */
  function BaseUrl(env: Env): (b: string)
    ensures b != ""
    ensures env.appUrl.Some? && env.appUrl.value != "" ==> b == env.appUrl.value
    ensures env.appUrl == None || env.appUrl == Some("") ==> b == DefaultBaseUrl
  {
    OrElse(env.appUrl, DefaultBaseUrl)
  }

  function PublicUrl(base: string, key: string): string
  {
    base + "/" + key
  }

  /**
   * Builds the put command for `key`, asks the signer for its URL and, when that
   * succeeds, returns the key unchanged beside its public URL `baseUrl/key`.
   */
  function GeneratePresignedUpload(key: string, contentType: string, env: Env, sign: Signer): (r: Presigning)
    ensures r.request.key == key && r.request.contentType == contentType
    ensures r.request.bucket == env.bucket
    ensures r.request.cacheControl == CacheDirective && r.request.expiresIn == 60
    ensures r.upload.Some? <==> sign(r.request).Some?
    ensures r.upload.Some? ==> r.upload.value.uploadUrl == sign(r.request).value
    ensures r.upload.Some? ==> r.upload.value.key == key
    ensures r.upload.Some? ==> r.upload.value.publicUrl == BaseUrl(env) + "/" + key
  {
    var request := PutObjectRequest(env.bucket, key, contentType, CacheDirective, UploadExpirySeconds);
    match sign(request)
    case None => Presigning(request, None)
    case Some(uploadUrl) => Presigning(request, Some(PresignedUpload(uploadUrl, key, PublicUrl(BaseUrl(env), key))))
  }

  /**
   * Reads the object stored under `key`. Errors of the storage call propagate;
   * a response without a body is "Image not found"; a missing or empty content
   * type reads as "image/jpeg".
   */
  function GetFromR2(key: string, env: Env, send: Fetcher): (r: Result<StoredImage, string>)
    ensures send(GetObjectRequest(env.bucket, key)).Failure? ==>
              r == Failure(send(GetObjectRequest(env.bucket, key)).error)
    ensures send(GetObjectRequest(env.bucket, key)).Success? ==>
              (r.Failure? <==> send(GetObjectRequest(env.bucket, key)).value.body.None?)
    ensures r.Failure? && send(GetObjectRequest(env.bucket, key)).Success? ==> r.error == ImageNotFound
    ensures r.Success? ==> r.value.buffer == send(GetObjectRequest(env.bucket, key)).value.body.value
    ensures r.Success? ==> r.value.contentType != ""
  {
    match send(GetObjectRequest(env.bucket, key))
    case Failure(e) => Failure(e)
    case Success(response) =>
      if response.body.None? then Failure(ImageNotFound)
      else Success(StoredImage(response.body.value, OrElse(response.contentType, DefaultContentType)))
  }

  /** A content type stored with the object is the one read back; otherwise the default. */
  lemma ReadBackContentType(key: string, env: Env, send: Fetcher, stored: string)
    requires send(GetObjectRequest(env.bucket, key)).Success?
    requires send(GetObjectRequest(env.bucket, key)).value.body.Some?
    ensures send(GetObjectRequest(env.bucket, key)).value.contentType == Some(stored) && stored != "" ==>
              GetFromR2(key, env, send) == Success(StoredImage(send(GetObjectRequest(env.bucket, key)).value.body.value, stored))
    ensures send(GetObjectRequest(env.bucket, key)).value.contentType in {None, Some("")} ==>
              GetFromR2(key, env, send).value.contentType == DefaultContentType
  {
  }

  /**
   * Round trip through storage. Given that storage answers a read of the
   * put's bucket and key with the stored bytes and the signed content type,
   * this shows only two things: the read addresses that same bucket and key,
   * and a non-empty signed type is returned rather than the default.
   */
  lemma UploadThenRead(key: string, contentType: string, env: Env, sign: Signer, send: Fetcher, bytes: seq<byte>)
    requires contentType != ""
    requires var put := GeneratePresignedUpload(key, contentType, env, sign).request;
             send(GetObjectRequest(put.bucket, put.key)) == Success(GetObjectResponse(Some(bytes), Some(put.contentType)))
    ensures GetFromR2(key, env, send) == Success(StoredImage(bytes, contentType))
  {
  }

  /** The path segment after the last '/' of `s` (all of `s` when it has none). */
  function LastSegment(s: string): (t: string)
    ensures |t| <= |s| && t == s[|s| - |t|..]
    ensures '/' !in t
    ensures |t| < |s| ==> s[|s| - |t| - 1] == '/'
    decreases |s|
  {
    if |s| == 0 then ""
    else if s[|s| - 1] == '/' then ""
    else
      var prefix := s[..|s| - 1];
      var u := LastSegment(prefix);
      assert s[|s| - |u| - 1..] == prefix[|prefix| - |u|..] + [s[|s| - 1]];
      assert |u| < |prefix| ==> s[|s| - |u| - 2] == prefix[|prefix| - |u| - 1];
      u + [s[|s| - 1]]
  }

  /** A key without '/' is recovered from its public URL as the last path segment. */
  lemma KeyFromPublicUrl(base: string, key: string)
    requires '/' !in key
    ensures LastSegment(PublicUrl(base, key)) == key
  {
    var s := PublicUrl(base, key);
    var t := LastSegment(s);
    assert s[|s| - |key| - 1] == '/';
    assert s[|s| - |key|..] == key;
  }

  /** Distinct keys have distinct public URLs under the same base. */
  lemma PublicUrlInjective(base: string, k1: string, k2: string)
    requires PublicUrl(base, k1) == PublicUrl(base, k2)
    ensures k1 == k2
  {
    assert k1 == PublicUrl(base, k1)[|base| + 1..];
    assert k2 == PublicUrl(base, k2)[|base| + 1..];
  }
}
