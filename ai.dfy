/** The generation client (src/ai/ai.service.ts): its configuration, the
    base64 prefix strip, and the requests `generateProfile` and
    `generateMotion` make, in order. HTTP is an oracle: an `HttpClient`
    records every request and answers the n-th with `respond(n, request)`. */
module Ai {
  import opened Wrappers
  import opened Text
  import opened Directions
  import opened DataUrl
  import Config

  const DefaultBaseUrl: string := "http://localhost:8000"

  /** `.replace(/\/$/, '')`: one trailing `/` is removed, no more. */
  function StripTrailingSlash(s: string): (r: string)
    ensures s != [] && s[|s| - 1] == '/' ==> r + "/" == s
    ensures s == [] || s[|s| - 1] != '/' ==> r == s
  {
    if s != [] && s[|s| - 1] == '/' then s[..|s| - 1] else s
  }

  function BaseUrlFrom(config: Config.Config): string
  {
    StripTrailingSlash(Config.GetOr(config, "AI_BASE_URL", DefaultBaseUrl))
  }

  function IsMockFrom(config: Config.Config): bool
  {
    AsciiLower(Config.GetOr(config, "AI_MOCK", "false")) == "true"
  }

  /** Mock mode is on exactly when `AI_MOCK` spells `true` in any letter case;
      it is off when `AI_MOCK` is not set. */
  lemma IsMockExactly(config: Config.Config)
    ensures "AI_MOCK" !in config ==> !IsMockFrom(config)
    ensures "AI_MOCK" in config ==>
      var v := config["AI_MOCK"];
      (IsMockFrom(config) <==>
        (|v| == 4 && (v[0] == 't' || v[0] == 'T') && (v[1] == 'r' || v[1] == 'R')
         && (v[2] == 'u' || v[2] == 'U') && (v[3] == 'e' || v[3] == 'E')))
  {
    if "AI_MOCK" !in config {
      assert AsciiLower("false")[0] == 'f';
    } else {
      var v := config["AI_MOCK"];
      var l := AsciiLower(v);
      if |v| == 4 {
        assert l == "true" <==> (l[0] == 't' && l[1] == 'r' && l[2] == 'u' && l[3] == 'e');
      }
    }
  }

  /** With nothing configured: the local server, real mode. */
  lemma DefaultsFromEmptyConfig()
    ensures BaseUrlFrom(map[]) == "http://localhost:8000"
    ensures !IsMockFrom(map[])
  {
    IsMockExactly(map[]);
  }

  /** The characters `.` does not match. */
  predicate IsLineTerminator(c: char)
  {
    c == '\n' || c == '\r' || c == '\U{2028}' || c == '\U{2029}'
  }

  predicate HasNoLineTerminator(p: string)
  {
    forall k :: 0 <= k < |p| ==> !IsLineTerminator(p[k])
  }

  /** `stripBase64Prefix`: the payload when the whole string matches
      `^data:image\/[^;]+;base64,(.+)$`, the input unchanged otherwise. */
  function StripBase64Prefix(s: string): (r: string)
    ensures MimeType(s).None? ==> r == s
    ensures r != s ==> MimeType(s).Some? && r == Payload(s, MimeType(s).value)
  {
    match MimeType(s)
    case None => s
    case Some(m) =>
      var p := Payload(s, m);
      if |p| >= 1 && HasNoLineTerminator(p) then p else s
  }

  /** On a data URL: the payload when it is one line of at least one
      character, otherwise the whole input (so `data:image/png;base64,` comes
      back as it is). */
  lemma StripBase64PrefixOfDataUrl(mime: string, payload: string)
    requires |mime| >= 1 && ';' !in mime
    ensures StripBase64Prefix(Header(mime) + payload)
      == if |payload| >= 1 && HasNoLineTerminator(payload) then payload else Header(mime) + payload
  {
    MimeTypeOfHeader(mime, payload);
    assert Payload(Header(mime) + payload, mime) == payload;
  }

  datatype ProfileGenerationRequest = ProfileGenerationRequest(sourceImage: string, uploadUrl: string, blobUrl: string)

  datatype MotionGenerationRequest = MotionGenerationRequest(profileUrl: string, uploadUrls: PerDirection<string>)

  /** A request body: nothing, one of the two JSON requests, or image bytes. */
  datatype Body = NoBody | ProfileJson(profile: ProfileGenerationRequest) | MotionJson(motion: MotionGenerationRequest) | ImageBytes(data: Bytes)

  datatype HttpRequest = HttpRequest(verb: string, url: string, headers: seq<(string, string)>, body: Body)

  /** A reply with its status, body bytes and body text, or a rejected `fetch`. */
  datatype Response = Reply(status: int, body: Bytes, text: string) | NetworkError

  predicate IsOk(res: Response)
  {
    res.Reply? && 200 <= res.status <= 299
  }

  type Responder = (nat, HttpRequest) -> Response

  datatype AiError =
    | BlobUploadFailed(status: int, text: string)
    | ProfileGenerationFailed(status: int, text: string)
    | MotionGenerationFailed(status: int, text: string)
    | ProfileFetchFailed(url: string)
    | FetchFailed(url: string)
  {
    predicate HasStatus()
    {
      BlobUploadFailed? || ProfileGenerationFailed? || MotionGenerationFailed?
    }

    function Lead(): string
    {
      match this
      case BlobUploadFailed(_, _) => "Blob upload failed: "
      case ProfileGenerationFailed(_, _) => "AI profile generation failed: "
      case MotionGenerationFailed(_, _) => "AI motion generation failed: "
      case ProfileFetchFailed(_) => "Failed to fetch profile: "
      case FetchFailed(_) => "fetch failed"
    }

    /** The error message. */
    function Message(): string
    {
      match this
      case ProfileFetchFailed(url) => Lead() + url
      case FetchFailed(_) => Lead()
      case _ => Lead() + IntToString(status) + " " + text
    }
  }

  /** The message of a failed reply carries its HTTP status in decimal. */
  lemma MessageCarriesStatus(e: AiError)
    requires e.HasStatus()
    ensures var s := IntToString(e.status); var i := |e.Lead()|;
      i + |s| <= |e.Message()| && e.Message()[i..i + |s|] == s
  {
    var s := IntToString(e.status);
    assert e.Message() == e.Lead() + s + (" " + e.text);
  }

  function GetRequest(url: string): HttpRequest
  {
    HttpRequest("GET", url, [], NoBody)
  }

  function PostJson(url: string, body: Body): HttpRequest
  {
    HttpRequest("POST", url, [("Content-Type", "application/json")], body)
  }

  function PutRequest(uploadUrl: string, buffer: Bytes): HttpRequest
  {
    HttpRequest("PUT", uploadUrl,
      [("Content-Type", "image/png"), ("Content-Length", IntToString(|buffer|)), ("x-ms-blob-type", "BlockBlob")],
      ImageBytes(buffer))
  }

  /** The requests one call makes, in order, and how it ends; the first
      request is answered as call number `n`. */
  datatype Run = Run(requests: seq<HttpRequest>, outcome: Outcome<AiError>)

  /** Which request a non-ok reply answered. */
  datatype Step = BlobUpload | ProfileGeneration | MotionGeneration

  function StatusError(step: Step, status: int, text: string): AiError
  {
    match step
    case BlobUpload => BlobUploadFailed(status, text)
    case ProfileGeneration => ProfileGenerationFailed(status, text)
    case MotionGeneration => MotionGenerationFailed(status, text)
  }

  /** What awaiting `fetch(url)` and checking `res.ok` gives. */
  function Checked(res: Response, url: string, step: Step): Outcome<AiError>
  {
    if res.NetworkError? then Fail(FetchFailed(url))
    else if !IsOk(res) then Fail(StatusError(step, res.status, res.text))
    else Pass
  }

  /** `putImage`: one PUT of the bytes; a non-ok reply fails with its status. */
  function PutRun(url: string, buffer: Bytes, respond: Responder, n: nat): Run
  {
    var req := PutRequest(url, buffer);
    var res := respond(n, req);
    Run([req], Checked(res, url, BlobUpload))
  }

  /** Run `first`, and `rest` after it unless `first` failed. */
  function Then(first: Run, rest: Run): Run
  {
    if first.outcome.Fail? then first else Run(first.requests + rest.requests, rest.outcome)
  }

  /** Consecutive `putImage` calls of the same bytes, stopping at the first
      that fails. */
  function PutAll(urls: seq<string>, buffer: Bytes, respond: Responder, n: nat): (r: Run)
    ensures |r.requests| <= |urls|
    ensures urls != [] ==> |r.requests| >= 1
    decreases |urls|
  {
    if urls == [] then Run([], Pass)
    else Then(PutRun(urls[0], buffer, respond, n), PutAll(urls[1..], buffer, respond, n + 1))
  }

  /** The four uploads of a motion sheet, one after the other. */
  lemma PutAllFour(urls: PerDirection<string>, buffer: Bytes, respond: Responder, n: nat)
    ensures PutAll(urls.InOrder(), buffer, respond, n)
      == Then(PutRun(urls.front, buffer, respond, n),
         Then(PutRun(urls.back, buffer, respond, n + 1),
         Then(PutRun(urls.left, buffer, respond, n + 2),
              PutRun(urls.right, buffer, respond, n + 3))))
  {
    var u0 := urls.InOrder();
    var u1 := u0[1..];
    var u2 := u1[1..];
    var u3 := u2[1..];
    assert u0[0] == urls.front && u1[0] == urls.back && u2[0] == urls.left && u3[0] == urls.right;
    var last := PutRun(urls.right, buffer, respond, n + 3);
    assert last.requests + [] == last.requests;
    assert PutAll(u3, buffer, respond, n + 3) == Then(last, Run([], Pass)) == last;
    assert PutAll(u2, buffer, respond, n + 2) == Then(PutRun(urls.left, buffer, respond, n + 2), last);
    assert PutAll(u1, buffer, respond, n + 1)
      == Then(PutRun(urls.back, buffer, respond, n + 1), PutAll(u2, buffer, respond, n + 2));
  }

  /** A run that starts with an ok response and then stops at its first
      failure stops at its first failure. */
  lemma PrependOk(req: HttpRequest, run: Run, respond: Responder, n: nat)
    requires IsOk(respond(n, req)) && |run.requests| >= 1
    requires StopsAtFirstFailure(run, respond, n + 1)
    ensures StopsAtFirstFailure(Run([req] + run.requests, run.outcome), respond, n)
  {
    var r := Run([req] + run.requests, run.outcome);
    forall k | 1 <= k < |r.requests| ensures r.requests[k] == run.requests[k - 1] && n + k == (n + 1) + (k - 1) {
    }
  }

  /** `generateProfile`: in mock mode one PUT of the decoded source image to
      its upload URL; otherwise one POST of the request to `{baseUrl}/profile`. */
  function ProfileRun(baseUrl: string, isMock: bool, req: ProfileGenerationRequest, decode: Decoder, respond: Responder, n: nat): Run
  {
    if isMock then PutRun(req.uploadUrl, decode(StripBase64Prefix(req.sourceImage)), respond, n)
    else
      var url := baseUrl + "/profile";
      var post := PostJson(url, ProfileJson(req));
      var res := respond(n, post);
      Run([post], Checked(res, url, ProfileGeneration))
  }

  /** `generateMotion`: in mock mode a GET of the profile, then PUTs of its
      bytes to the front, back, left and right upload URLs; otherwise one POST
      of the request to `{baseUrl}/motion`. */
  function MotionRun(baseUrl: string, isMock: bool, req: MotionGenerationRequest, respond: Responder, n: nat): Run
  {
    if isMock then
      var get := GetRequest(req.profileUrl);
      var res := respond(n, get);
      if res.NetworkError? then Run([get], Fail(FetchFailed(req.profileUrl)))
      else if !IsOk(res) then Run([get], Fail(ProfileFetchFailed(req.profileUrl)))
      else
        var puts := PutAll(req.uploadUrls.InOrder(), res.body, respond, n + 1);
        Run([get] + puts.requests, puts.outcome)
    else
      var url := baseUrl + "/motion";
      var post := PostJson(url, MotionJson(req));
      var res := respond(n, post);
      Run([post], Checked(res, url, MotionGeneration))
  }

  /** Which call a request belongs to: a JSON body names the generation
      endpoint it was posted to, anything else is a blob upload. */
  function StepOf(req: HttpRequest): Step
  {
    match req.body
    case ProfileJson(_) => ProfileGeneration
    case MotionJson(_) => MotionGeneration
    case _ => BlobUpload
  }

  /** The error `e` is what the reply `res` to `req` raises: a rejected
      `fetch` rethrows its failure; a non-ok reply to the profile GET names
      the URL; a non-ok reply to a PUT or POST carries its status and text
      in the error of that call. */
  predicate RaisedBy(e: AiError, req: HttpRequest, res: Response)
  {
    if res.NetworkError? then e == FetchFailed(req.url)
    else if IsOk(res) then false
    else if req.verb == "GET" then e == ProfileFetchFailed(req.url)
    else e == StatusError(StepOf(req), res.status, res.text)
  }

  /** A run stops at its first non-ok response: every earlier response was
      ok, it succeeds only if the last one was ok too, and a failure is the
      error that last response raises (with its status). */
  ghost predicate StopsAtFirstFailure(run: Run, respond: Responder, n: nat)
  {
    && (forall k :: 0 <= k < |run.requests| - 1 ==> IsOk(respond(n + k, run.requests[k])))
    && (run.outcome.Pass? ==> forall k :: 0 <= k < |run.requests| ==> IsOk(respond(n + k, run.requests[k])))
    && (run.outcome.Fail? ==>
          (|run.requests| >= 1
           && RaisedBy(run.outcome.error, run.requests[|run.requests| - 1],
                       respond(n + |run.requests| - 1, run.requests[|run.requests| - 1]))))
  }

  lemma {:induction false} PutAllStops(urls: seq<string>, buffer: Bytes, respond: Responder, n: nat)
    ensures StopsAtFirstFailure(PutAll(urls, buffer, respond, n), respond, n)
    decreases |urls|
  {
    if urls != [] {
      var first := PutRun(urls[0], buffer, respond, n);
      if first.outcome.Pass? && |urls| > 1 {
        PutAllStops(urls[1..], buffer, respond, n + 1);
        var rest := PutAll(urls[1..], buffer, respond, n + 1);
        PrependOk(first.requests[0], rest, respond, n);
      }
    }
  }

  /** The uploads go to the given URLs in order, all of them when none fails. */
  lemma {:induction false} PutAllTargets(urls: seq<string>, buffer: Bytes, respond: Responder, n: nat)
    ensures var r := PutAll(urls, buffer, respond, n);
      (forall k :: 0 <= k < |r.requests| ==> r.requests[k] == PutRequest(urls[k], buffer))
      && (r.outcome.Pass? ==> |r.requests| == |urls|)
    decreases |urls|
  {
    if urls != [] {
      var first := PutRun(urls[0], buffer, respond, n);
      if first.outcome.Pass? {
        PutAllTargets(urls[1..], buffer, respond, n + 1);
        var rest := PutAll(urls[1..], buffer, respond, n + 1);
        var r := PutAll(urls, buffer, respond, n);
        assert r.requests == [PutRequest(urls[0], buffer)] + rest.requests;
        forall k | 1 <= k < |r.requests| ensures r.requests[k] == PutRequest(urls[k], buffer) {
          assert r.requests[k] == rest.requests[k - 1];
          assert urls[1..][k - 1] == urls[k];
        }
      }
    }
  }

  /** Every `generateProfile` run stops at its failing response and reports it. */
  lemma ProfileRunStops(baseUrl: string, isMock: bool, p: ProfileGenerationRequest, decode: Decoder, respond: Responder, n: nat)
    ensures StopsAtFirstFailure(ProfileRun(baseUrl, isMock, p, decode, respond, n), respond, n)
  {
  }

  /** Every `generateMotion` run stops at its first failing response and
      reports it. */
  lemma MotionRunStops(baseUrl: string, isMock: bool, m: MotionGenerationRequest, respond: Responder, n: nat)
    ensures StopsAtFirstFailure(MotionRun(baseUrl, isMock, m, respond, n), respond, n)
  {
    var get := GetRequest(m.profileUrl);
    var res := respond(n, get);
    if isMock && IsOk(res) {
      PutAllStops(m.uploadUrls.InOrder(), res.body, respond, n + 1);
      PrependOk(get, PutAll(m.uploadUrls.InOrder(), res.body, respond, n + 1), respond, n);
    }
  }

  /** The status `status` appears in decimal in the message of `e`, right
      after its lead. */
  ghost predicate ShowsStatus(e: AiError, status: int)
  {
    var s := IntToString(status); var i := |e.Lead()|;
    i + |s| <= |e.Message()| && e.Message()[i..i + |s|] == s
  }

  /** A run that stops at its first failure and fails on a reply to a PUT or
      a POST throws the error of that call, carrying the reply's status and
      text, and its message shows the status. */
  lemma FailedReplyCarriesStatus(run: Run, respond: Responder, n: nat)
    requires StopsAtFirstFailure(run, respond, n) && run.outcome.Fail?
    ensures var last := run.requests[|run.requests| - 1];
      var res := respond(n + |run.requests| - 1, last);
      res.Reply? && last.verb != "GET" ==>
        && run.outcome.error == StatusError(StepOf(last), res.status, res.text)
        && ShowsStatus(run.outcome.error, res.status)
  {
    var last := run.requests[|run.requests| - 1];
    var res := respond(n + |run.requests| - 1, last);
    if res.Reply? && last.verb != "GET" {
      MessageCarriesStatus(run.outcome.error);
    }
  }

  /** A `generateProfile` that fails on a reply, whichever the mode, throws
      the error of its only request (`Blob upload failed` in mock mode, `AI
      profile generation failed` otherwise) with the reply's status in the
      message. */
  lemma ProfileRunReportsStatus(baseUrl: string, isMock: bool, p: ProfileGenerationRequest, decode: Decoder,
                                respond: Responder, n: nat)
    ensures var r := ProfileRun(baseUrl, isMock, p, decode, respond, n);
      var res := respond(n, r.requests[0]);
      r.outcome.Fail? && res.Reply? ==>
        && r.outcome.error == (if isMock then BlobUploadFailed(res.status, res.text)
                               else ProfileGenerationFailed(res.status, res.text))
        && ShowsStatus(r.outcome.error, res.status)
  {
    var r := ProfileRun(baseUrl, isMock, p, decode, respond, n);
    if r.outcome.Fail? {
      ProfileRunStops(baseUrl, isMock, p, decode, respond, n);
      FailedReplyCarriesStatus(r, respond, n);
    }
  }

  /** A `generateMotion` that fails on a reply to one of its PUTs or to its
      POST throws `Blob upload failed` or `AI motion generation failed` with
      that reply's status in the message; only a failed profile GET throws
      an error without a status. */
  lemma MotionRunReportsStatus(baseUrl: string, isMock: bool, m: MotionGenerationRequest, respond: Responder, n: nat)
    ensures var r := MotionRun(baseUrl, isMock, m, respond, n);
      var last := r.requests[|r.requests| - 1];
      var res := respond(n + |r.requests| - 1, last);
      r.outcome.Fail? && res.Reply? ==>
        if last.verb == "GET" then r.outcome.error == ProfileFetchFailed(m.profileUrl)
        else
          && r.outcome.error == (if isMock then BlobUploadFailed(res.status, res.text)
                                 else MotionGenerationFailed(res.status, res.text))
          && ShowsStatus(r.outcome.error, res.status)
  {
    var r := MotionRun(baseUrl, isMock, m, respond, n);
    var get := GetRequest(m.profileUrl);
    if isMock && IsOk(respond(n, get)) {
      var puts := PutAll(m.uploadUrls.InOrder(), respond(n, get).body, respond, n + 1);
      assert r == Run([get] + puts.requests, puts.outcome);
      MockUploadsReportStatus(m, respond(n, get).body, respond, n);
    } else if !isMock {
      var url := baseUrl + "/motion";
      var post := PostJson(url, MotionJson(m));
      assert r == Run([post], Checked(respond(n, post), url, MotionGeneration));
    }
  }

  /** After the profile GET of a mock motion run: the uploads that follow it
      fail, if at all, on a PUT, with the blob-upload error carrying the
      reply's status. */
  lemma MockUploadsReportStatus(m: MotionGenerationRequest, body: Bytes, respond: Responder, n: nat)
    ensures var puts := PutAll(m.uploadUrls.InOrder(), body, respond, n + 1);
      var r := Run([GetRequest(m.profileUrl)] + puts.requests, puts.outcome);
      var last := r.requests[|r.requests| - 1];
      var res := respond(n + |r.requests| - 1, last);
      r.outcome.Fail? && res.Reply? ==>
        && last.verb != "GET"
        && r.outcome.error == BlobUploadFailed(res.status, res.text)
        && ShowsStatus(r.outcome.error, res.status)
  {
    var puts := PutAll(m.uploadUrls.InOrder(), body, respond, n + 1);
    if puts.outcome.Fail? {
      PutAllReportsStatus(m.uploadUrls.InOrder(), body, respond, n + 1);
      var r := Run([GetRequest(m.profileUrl)] + puts.requests, puts.outcome);
      assert r.requests[|r.requests| - 1] == puts.requests[|puts.requests| - 1];
    }
  }

  /** Sequential uploads that fail on a reply throw the blob-upload error of
      that reply, with its status in the message. */
  lemma PutAllReportsStatus(urls: seq<string>, body: Bytes, respond: Responder, n: nat)
    ensures var puts := PutAll(urls, body, respond, n);
      puts.outcome.Fail? ==>
        var last := puts.requests[|puts.requests| - 1];
        var res := respond(n + |puts.requests| - 1, last);
        && last.verb == "PUT"
        && (res.Reply? ==>
              puts.outcome.error == BlobUploadFailed(res.status, res.text)
              && ShowsStatus(puts.outcome.error, res.status))
  {
    var puts := PutAll(urls, body, respond, n);
    if puts.outcome.Fail? {
      PutAllStops(urls, body, respond, n);
      PutAllTargets(urls, body, respond, n);
      FailedReplyCarriesStatus(puts, respond, n);
      var i := |puts.requests| - 1;
      assert puts.requests[i] == PutRequest(urls[i], body);
    }
  }

  /** Real mode: exactly one POST of the request as JSON, to `{baseUrl}/profile`
      or `{baseUrl}/motion`. */
  lemma RealModePostsOnce(baseUrl: string, p: ProfileGenerationRequest, m: MotionGenerationRequest,
                          decode: Decoder, respond: Responder, n: nat)
    ensures ProfileRun(baseUrl, false, p, decode, respond, n).requests == [PostJson(baseUrl + "/profile", ProfileJson(p))]
    ensures MotionRun(baseUrl, false, m, respond, n).requests == [PostJson(baseUrl + "/motion", MotionJson(m))]
  {
  }

  /** Mock profile: one PUT of the decoded source image to its upload URL,
      and nothing else. */
  lemma MockProfilePutsOnce(baseUrl: string, p: ProfileGenerationRequest, decode: Decoder, respond: Responder, n: nat)
    ensures ProfileRun(baseUrl, true, p, decode, respond, n).requests
      == [PutRequest(p.uploadUrl, decode(StripBase64Prefix(p.sourceImage)))]
  {
  }

  /** Mock motion: the profile is fetched once, first; a failed fetch ends the
      run before any upload; otherwise the same bytes go to front, back, left
      and right in that order, and no request is a POST to the server. */
  lemma {:induction false} MockMotionOrder(baseUrl: string, m: MotionGenerationRequest, respond: Responder, n: nat)
    ensures var r := MotionRun(baseUrl, true, m, respond, n);
      |r.requests| >= 1 && r.requests[0] == GetRequest(m.profileUrl)
      && (!IsOk(respond(n, GetRequest(m.profileUrl))) ==> |r.requests| == 1 && r.outcome.Fail?)
      && (IsOk(respond(n, GetRequest(m.profileUrl))) ==>
            |r.requests| <= 5
            && (r.outcome.Pass? ==> |r.requests| == 5)
            && forall k :: 1 <= k < |r.requests| ==>
                 r.requests[k] == PutRequest(m.uploadUrls.Get(AllDirections[k - 1]), respond(n, GetRequest(m.profileUrl)).body))
      && forall k :: 0 <= k < |r.requests| ==> r.requests[k].verb != "POST"
  {
    var get := GetRequest(m.profileUrl);
    var res := respond(n, get);
    var r := MotionRun(baseUrl, true, m, respond, n);
    if IsOk(res) {
      var urls := m.uploadUrls.InOrder();
      var puts := PutAll(urls, res.body, respond, n + 1);
      PutAllTargets(urls, res.body, respond, n + 1);
      assert r.requests == [get] + puts.requests;
      forall k | 1 <= k < |r.requests|
        ensures r.requests[k] == PutRequest(m.uploadUrls.Get(AllDirections[k - 1]), res.body)
      {
        assert r.requests[k] == puts.requests[k - 1];
      }
    }
  }

  class HttpClient {
    var trace: seq<HttpRequest>
    const respond: Responder

    constructor (respond: Responder)
      ensures trace == [] && this.respond == respond
    {
      trace := [];
      this.respond := respond;
    }

    method Fetch(req: HttpRequest) returns (res: Response)
      modifies this
      ensures trace == old(trace) + [req]
      ensures res == respond(|old(trace)|, req)
    {
      res := respond(|trace|, req);
      trace := trace + [req];
    }
  }

  class AiService {
    const baseUrl: string
    const isMock: bool
    const http: HttpClient

    /** The constructor: the base URL (default `http://localhost:8000`) without
        one trailing `/`, and mock mode from `AI_MOCK`. */
    constructor (config: Config.Config, http: HttpClient)
      ensures baseUrl == BaseUrlFrom(config) && isMock == IsMockFrom(config) && this.http == http
    {
      baseUrl := BaseUrlFrom(config);
      isMock := IsMockFrom(config);
      this.http := http;
    }

    method PutImage(uploadUrl: string, buffer: Bytes) returns (r: Outcome<AiError>)
      modifies http
      ensures http.trace == old(http.trace) + PutRun(uploadUrl, buffer, http.respond, |old(http.trace)|).requests
      ensures r == PutRun(uploadUrl, buffer, http.respond, |old(http.trace)|).outcome
    {
      var res := http.Fetch(PutRequest(uploadUrl, buffer));
      r := Checked(res, uploadUrl, BlobUpload);
    }

    method GenerateProfile(req: ProfileGenerationRequest, decode: Decoder) returns (r: Outcome<AiError>)
      modifies http
      ensures http.trace == old(http.trace) + ProfileRun(baseUrl, isMock, req, decode, http.respond, |old(http.trace)|).requests
      ensures r == ProfileRun(baseUrl, isMock, req, decode, http.respond, |old(http.trace)|).outcome
    {
      if isMock {
        var buffer := decode(StripBase64Prefix(req.sourceImage));
        r := PutImage(req.uploadUrl, buffer);
        return;
      }
      var url := baseUrl + "/profile";
      var res := http.Fetch(PostJson(url, ProfileJson(req)));
      r := Checked(res, url, ProfileGeneration);
    }

    /** The four `putImage` calls of mock motion generation. */
    method PutFour(urls: PerDirection<string>, buffer: Bytes) returns (r: Outcome<AiError>)
      modifies http
      ensures http.trace == old(http.trace) + PutAll(urls.InOrder(), buffer, http.respond, |old(http.trace)|).requests
      ensures r == PutAll(urls.InOrder(), buffer, http.respond, |old(http.trace)|).outcome
    {
      ghost var n := |http.trace|;
      PutAllFour(urls, buffer, http.respond, n);
      r := PutImage(urls.front, buffer);
      if r.Fail? {
        return;
      }
      r := PutImage(urls.back, buffer);
      if r.Fail? {
        return;
      }
      r := PutImage(urls.left, buffer);
      if r.Fail? {
        return;
      }
      r := PutImage(urls.right, buffer);
    }

    method GenerateMotion(req: MotionGenerationRequest) returns (r: Outcome<AiError>)
      modifies http
      ensures http.trace == old(http.trace) + MotionRun(baseUrl, isMock, req, http.respond, |old(http.trace)|).requests
      ensures r == MotionRun(baseUrl, isMock, req, http.respond, |old(http.trace)|).outcome
    {
      if isMock {
        var profileRes := http.Fetch(GetRequest(req.profileUrl));
        if profileRes.NetworkError? {
          r := Fail(FetchFailed(req.profileUrl));
          return;
        }
        if !IsOk(profileRes) {
          r := Fail(ProfileFetchFailed(req.profileUrl));
          return;
        }
        r := PutFour(req.uploadUrls, profileRes.body);
        return;
      }
      var url := baseUrl + "/motion";
      var res := http.Fetch(PostJson(url, MotionJson(req)));
      r := Checked(res, url, MotionGeneration);
    }
  }
}
