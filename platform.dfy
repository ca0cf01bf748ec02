// The platform logo endpoints (routes/platform.routes.js): two module-level variables,
// the current logo URL and its Cloudinary public id, behind a local token check.
module PlatformLogo {
  import opened Common
  import opened Text

  /** How a request ends: a JSON reply with a status, or an error passed to next(err). */
  datatype Outcome = Reply(status: int) | Forwarded

  /** What Cloudinary's upload_stream resolves with. */
  datatype Uploaded = Uploaded(secureUrl: string, publicId: string)

  /**
   * The local guard: `req.headers.authorization?.split(' ')[1]` must be truthy. The token
   * is never verified.
   */
  predicate HasToken(header: Option<string>)
  {
    header.Some? && |Split(header.value, ' ')| >= 2 && Split(header.value, ' ')[1] != ""
  }

  /** Any word followed by a space and a non-empty word passes; the scheme is not checked. */
  lemma {:induction false} AnySchemePasses(scheme: string, token: string)
    requires ' ' !in scheme && token != "" && token[0] != ' '
    ensures HasToken(Some(scheme + " " + token))
  {
    assert scheme + " " + token == scheme + [' '] + token;
    SplitAfterPrefix(scheme, ' ', token);
    SplitFirstField(token, ' ');
    assert TakeUntil(token, ' ') != "";
  }

  /** A header without a second field is refused. */
  lemma NoSecondFieldFails()
    ensures !HasToken(None)
    ensures !HasToken(Some("Bearer"))
    ensures !HasToken(Some("Bearer "))
  {
    assert "Bearer " == "Bearer" + [' '] + "";
    SplitAfterPrefix("Bearer", ' ', "");
    var rest := Split("Bearer"[1..], ' ');
    assert Split("Bearer", ' ') == [['B'] + rest[0]] + rest[1..];
    assert |Split("Bearer", ' ')| == 1 by {
      assert ' ' !in "Bearer";
      SingleField("Bearer", ' ');
    }
  }

  /** Splitting a string without the separator gives that string as the only field. */
  lemma {:induction false} SingleField(s: string, sep: char)
    requires sep !in s
    ensures Split(s, sep) == [s]
  {
    if |s| > 0 {
      SingleField(s[1..], sep);
      assert [s[0]] + s[1..] == s;
    }
  }

  class LogoStore {
    var currentLogoUrl: Option<string>
    var currentPublicId: Option<string>

    /** The module is loaded with no logo. */
    constructor ()
      ensures currentLogoUrl == None && currentPublicId == None
    {
      currentLogoUrl := None;
      currentPublicId := None;
    }

    /**
     * POST /api/platform/logo. `hasFile` says whether multer found a 'logo' file and
     * `upload` is the Cloudinary result (None when the upload rejects).
     */
    method Post(header: Option<string>, hasFile: bool, upload: Option<Uploaded>)
      returns (outcome: Outcome, logoUrl: Option<string>)
      modifies this
      ensures !HasToken(header) ==> outcome == Reply(401)
      ensures HasToken(header) && !hasFile ==> outcome == Reply(400)
      ensures HasToken(header) && hasFile && upload.None? ==> outcome == Forwarded
      ensures outcome == Reply(200) <==> HasToken(header) && hasFile && upload.Some?
      ensures outcome == Reply(200) ==>
                currentLogoUrl == Some(upload.value.secureUrl) && currentPublicId == Some(upload.value.publicId)
                && logoUrl == currentLogoUrl
      ensures outcome != Reply(200) ==> unchanged(this)
    {
      logoUrl := None;
      if !HasToken(header) {
        outcome := Reply(401);
        return;
      }
      if !hasFile {
        outcome := Reply(400);
        return;
      }
      if upload.None? {
        outcome := Forwarded;
        return;
      }
      currentLogoUrl := Some(upload.value.secureUrl);
      currentPublicId := Some(upload.value.publicId);
      outcome := Reply(200);
      logoUrl := currentLogoUrl;
    }

    /** GET /api/platform/logo: the current URL, possibly null, and no change. */
    method Get(header: Option<string>) returns (outcome: Outcome, logoUrl: Option<string>)
      ensures outcome == (if HasToken(header) then Reply(200) else Reply(401))
      ensures outcome == Reply(200) ==> logoUrl == currentLogoUrl
    {
      if !HasToken(header) {
        outcome, logoUrl := Reply(401), None;
      } else {
        outcome, logoUrl := Reply(200), currentLogoUrl;
      }
    }

    /**
     * DELETE /api/platform/logo. Both fields are cleared only when both are set (and the
     * Cloudinary destroy succeeds); the reply is a success either way.
     */
    method Delete(header: Option<string>, destroyOk: bool) returns (outcome: Outcome)
      modifies this
      ensures !HasToken(header) ==> outcome == Reply(401) && unchanged(this)
      ensures HasToken(header) && !(Present(old(currentLogoUrl)) && Present(old(currentPublicId))) ==>
                outcome == Reply(200) && unchanged(this)
      ensures HasToken(header) && Present(old(currentLogoUrl)) && Present(old(currentPublicId)) ==>
                if destroyOk then outcome == Reply(200) && currentLogoUrl == None && currentPublicId == None
                else outcome == Forwarded && unchanged(this)
    {
      if !HasToken(header) {
        return Reply(401);
      }
      if Present(currentLogoUrl) && Present(currentPublicId) {
        if !destroyOk {
          return Forwarded;
        }
        currentLogoUrl := None;
        currentPublicId := None;
      }
      outcome := Reply(200);
    }
  }
}
