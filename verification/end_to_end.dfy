/**
 * The page's upload run driven by the upload endpoint's own responses: what
 * the user ends up seeing for each request the endpoint accepts or rejects.
 */
module EndToEnd {
  import opened Wrappers
  import R2Client
  import opened UploadRoute
  import opened HomePage
  import Session

  /**
   * The endpoint's response as the page's fetch reads it: `ok` for a 2xx
   * status, and the body fields it looks at.
   */
  function Wire(resp: Response): CredentialReply
  {
    var ok := 200 <= resp.status <= 299;
    match resp.body
    case Created(uploadUrl, _, url) => CredentialReplied(ok, None, Some(uploadUrl), Some(url))
    case ErrorBody(error) => CredentialReplied(ok, Some(error), None, None)
  }

  /**
   * For a file posted by the page: the PUT happens exactly when the endpoint
   * answered 200, a rejection is toasted with the endpoint's own message, and
   * the URL shown is `baseUrl/key` exactly when the file passes the policy and
   * both signing and the PUT succeed.
   */
  lemma ClientDrivesRoute(f: File, key: string, env: R2Client.Env, sign: R2Client.Signer, put: PutReply)
    requires IsObjectKey(key)
    ensures var h := Post(RequestPayload(f), key, env, sign);
            var run := RunUpload(f, Wire(h.response), put);
            && (run.put.Some? <==> h.response.status == 200)
            && (run.put.Some? ==> run.put.value.target == Some(h.response.body.uploadUrl))
            && (h.response.status != 200 ==> run.settlement == Failed(h.response.body.error))
            && (f.mimeType == "" ==> run.settlement == Failed(MsgTypeRequired))
            && (f.mimeType != "" && f.mimeType !in AllowedTypes ==> run.settlement == Failed(MsgInvalidType))
            && (f.mimeType in AllowedTypes && f.size > MaxFileSize ==> run.settlement == Failed(MsgTooLarge))
            && (run.settlement.Uploaded? <==>
                  && f.mimeType in AllowedTypes && f.size <= MaxFileSize
                  && sign(R2Client.GeneratePresignedUpload(key, f.mimeType, env, sign).request).Some?
                  && put == PutReplied(true))
            && (run.settlement.Uploaded? ==> run.settlement.url == Some(R2Client.BaseUrl(env) + "/" + key))
  {
  }

  /**
   * From a fresh page, dropping an accepted image whose signing and PUT
   * succeed leaves the page showing `baseUrl/key`, with the spinner off and
   * nothing in flight.
   */
  lemma DropShowsPublicUrl(f: File, rest: seq<File>, key: string, env: R2Client.Env, sign: R2Client.Signer)
    requires IsObjectKey(key)
    requires f.mimeType in AllowedTypes && f.size <= MaxFileSize
    requires sign(R2Client.GeneratePresignedUpload(key, f.mimeType, env, sign).request).Some?
    ensures var w1 := Session.Next(Session.Start, Session.Gesture(Drop(Some([f] + rest))));
            && w1.inFlight == [f]
            && var cred := Wire(Post(RequestPayload(f), key, env, sign).response);
               var w2 := Session.Next(w1, Session.UploadSettles(0, cred, PutReplied(true)));
               && w2.ui.uploadedUrl == Some(R2Client.BaseUrl(env) + "/" + key)
               && HasUrl(w2.ui) && !w2.ui.uploading && w2.inFlight == [] && w2.toasts == []
  {
  }
}
