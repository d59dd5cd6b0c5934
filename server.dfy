/** The backend application: its own copy of the request guards, the
    `/download_node` route that shapes a yt-dlp download into an answer,
    the progress table the download hook fills, and the event stream that
    reports and clears it. */
module Server {
  import opened Common
  import opened Security
  import opened YtDlp

  const AccessDeniedError: string := "Access denied"
  const RateLimitError: string := "Rate limit exceeded. Please wait 5 minutes."
  const DownloadFailedError: string := "An error occurred during the download process"

  /** What `download_node` answers once a request is past the ban and the
      rate limit. A mode without a selector, a crash, and a download error
      whose text is "none" (read as success, so `filepath` is missing) all
      end in the route's catch-all 500. */
  function NodeReply(req: DownloadRequest, outcome: Outcome): Reply {
    if FormatSelector(req).None? then ErrorJson(500, DownloadFailedError)
    else
      match outcome
      case DownloadError(message) =>
        if message != "none" then ErrorJson(400, message) else ErrorJson(500, DownloadFailedError)
      case Downloaded(filepath) => Attachment(Basename(filepath))
      case Crashed => ErrorJson(500, DownloadFailedError)
  }

  /** Past the guards the route streams the file exactly when yt-dlp
      downloaded one for a known mode, answers 400 with the message of a
      download error, and otherwise the catch-all 500. */
  lemma NodeReplySpec(req: DownloadRequest, outcome: Outcome)
    ensures NodeReply(req, outcome).Attachment? <==>
      (req.mode == "audio" || req.mode == "auto") && outcome.Downloaded?
    ensures NodeReply(req, outcome).Attachment? ==> '/' !in NodeReply(req, outcome).filename
    ensures (NodeReply(req, outcome).ErrorJson? && NodeReply(req, outcome).status == 400) <==>
      (req.mode == "audio" || req.mode == "auto") && outcome.DownloadError? && outcome.message != "none"
    ensures NodeReply(req, outcome).ErrorJson? && NodeReply(req, outcome).status == 400 ==>
      outcome.DownloadError? && NodeReply(req, outcome).error == outcome.message
    ensures NodeReply(req, outcome).ErrorJson? ==>
      NodeReply(req, outcome).status == 400 || NodeReply(req, outcome) == ErrorJson(500, DownloadFailedError)
  {
    var known := req.mode == "audio" || req.mode == "auto";
    assert FormatSelector(req).Some? <==> known by {
      FormatSelectorSpec(req);
    }
    if !known {
      assert NodeReply(req, outcome) == ErrorJson(500, DownloadFailedError);
    } else if outcome.Downloaded? {
      BasenameSpec(outcome.filepath);
      assert NodeReply(req, outcome) == Attachment(Basename(outcome.filepath));
    }
  }

  /** The node route answers what the stand-alone route answers, with a
      download error raised to 400 and every failure made the catch-all
      500, and with the file itself in place of its location. */
  lemma NodeMatchesPython(req: DownloadRequest, outcome: Outcome)
    ensures DownloadPython(req, outcome) == InternalServerError ==>
      NodeReply(req, outcome) == ErrorJson(500, DownloadFailedError)
    ensures DownloadPython(req, outcome).ErrorJson? && DownloadPython(req, outcome).error != "none" ==>
      NodeReply(req, outcome) == ErrorJson(400, DownloadPython(req, outcome).error)
    ensures DownloadPython(req, outcome).Located? ==>
      NodeReply(req, outcome) == Attachment(DownloadPython(req, outcome).filename)
  {
  }

  /** `d.get('total_bytes') or d.get('total_bytes_estimate', 0)`: a missing
      or zero total gives way to the estimate, a missing estimate to 0. */
  function HookTotal(totalBytes: Option<int>, estimate: Option<int>): int {
    if totalBytes.Some? && totalBytes.value != 0 then totalBytes.value else estimate.GetOr(0)
  }

  /** The share of the file downloaded, in percent. */
  function Percent(downloaded: int, total: int): real
    requires total > 0
  {
    downloaded as real / total as real * 100.0
  }

  /** A byte count within the total gives a percentage from 0 to 100, and
      100 exactly when the whole file is there. */
  lemma PercentBounds(downloaded: int, total: int)
    requires 0 <= downloaded <= total && total > 0
    ensures 0.0 <= Percent(downloaded, total) <= 100.0
    ensures Percent(downloaded, total) == 100.0 <==> downloaded == total
  {
    var d, t := downloaded as real, total as real;
    var f := d / t;
    assert f * t == d;
    assert 0.0 <= f <= 1.0;
    if f == 1.0 {
      assert d == t;
    }
  }

  /** One call of `progress_hook`: whether yt-dlp reports `downloading`,
      its `total_bytes` and `total_bytes_estimate` (None when missing or
      given as None), and its `downloaded_bytes` (a missing key read as 0,
      None when the value is None). */
  datatype HookCall = HookCall(downloading: bool, totalBytes: Option<int>, estimate: Option<int>, downloaded: Option<int>)

  /** The entry after one hook call: while downloading with a positive
      total it becomes the downloaded share; any other call, and a byte
      count of None (the TypeError the hook catches), keep it. */
  function HookStep(entry: real, c: HookCall): real {
    var total := HookTotal(c.totalBytes, c.estimate);
    if c.downloading && total > 0 && c.downloaded.Some? then Percent(c.downloaded.value, total) else entry
  }

  /** The entry after the hook calls `calls`, in order, from `entry`. */
  function Hooked(entry: real, calls: seq<HookCall>): real
    decreases |calls|
  {
    if calls == [] then entry else HookStep(Hooked(entry, calls[..|calls| - 1]), calls[|calls| - 1])
  }

  /** A call whose byte count lies within its total. */
  predicate SaneCall(c: HookCall) {
    c.downloaded.Some? ==> 0 <= c.downloaded.value <= HookTotal(c.totalBytes, c.estimate)
  }

  /** From the route's initial 0, hook calls whose counts stay within their
      totals leave a percentage from 0 to 100; and a last call that reports
      the whole of a known total leaves exactly 100. */
  lemma {:induction false} HookedBounds(calls: seq<HookCall>)
    requires forall k :: 0 <= k < |calls| ==> SaneCall(calls[k])
    ensures 0.0 <= Hooked(0.0, calls) <= 100.0
    ensures calls != [] && calls[|calls| - 1].downloading && calls[|calls| - 1].downloaded.Some? &&
            HookTotal(calls[|calls| - 1].totalBytes, calls[|calls| - 1].estimate) > 0 &&
            calls[|calls| - 1].downloaded.value == HookTotal(calls[|calls| - 1].totalBytes, calls[|calls| - 1].estimate) ==>
      Hooked(0.0, calls) == 100.0
    decreases |calls|
  {
    if calls != [] {
      var init := calls[..|calls| - 1];
      var c := calls[|calls| - 1];
      assert forall k :: 0 <= k < |init| ==> SaneCall(init[k]) by {
        forall k | 0 <= k < |init| ensures SaneCall(init[k]) {
          assert init[k] == calls[k];
        }
      }
      HookedBounds(init);
      var total := HookTotal(c.totalBytes, c.estimate);
      if c.downloading && total > 0 && c.downloaded.Some? {
        PercentBounds(c.downloaded.value, total);
      }
    }
  }

  /** `download_progress.get(id, 0)`. */
  function Progress(progress: map<string, real>, id: string): real {
    if id in progress then progress[id] else 0.0
  }

  /** One server process: the guard state of server.py (separate from any
      other process's) and the `download_progress` table. */
  class App {
    const guard: Guard
    var progress: map<string, real>

    /** Start-up: `load_banned_ips` runs before the server starts. */
    constructor (stored: set<string>)
      ensures guard.banned == stored && guard.requests == map[] && progress == map[]
    {
      guard := new Guard(stored);
      progress := map[];
    }

    /** `check_malicious_requests`, run before every route: the stored bans
        are loaded; a banned address, a raw body holding a malicious pattern
        or headers naming a scanner are refused with 403, the last two
        banning the address. */
    method CheckMaliciousRequests(ip: string, raw: seq<byte>, headers: string, stored: set<string>)
      returns (denied: bool)
      modifies guard`banned
      ensures denied <==> ip in old(guard.banned) + stored || HasMaliciousPattern(raw) || HasSuspiciousHeader(headers)
      ensures guard.banned == old(guard.banned) + stored + (if denied then {ip} else {})
    {
      guard.LoadBannedIps(stored);
      if ip in guard.banned {
        return true;
      }
      var malicious := guard.CheckRawRequest(raw, ip);
      if malicious {
        return true;
      }
      var suspicious := CheckSuspiciousHeaders(headers);
      if suspicious {
        guard.banned := guard.banned + {ip};
        return true;
      }
      return false;
    }

    /** `download_node`: a banned address gets 403 before any bookkeeping;
        then the request is counted and refused with 429 when over the
        limit; a body that is not JSON (`req` None) stops the route at
        `request.json`, outside its `try`, with Flask's own answer; otherwise
        a progress entry at 0 is opened under `downloadId`, the download
        runs with `progress_hook` called as `hooks` says (only once a
        selector exists, as yt-dlp never starts without one), and its
        outcome is shaped by NodeReply. */
    method DownloadNode(ip: string, now: int, req: Option<DownloadRequest>, downloadId: string,
                        hooks: seq<HookCall>, outcome: Outcome)
      returns (reply: Reply)
      modifies guard`requests, this`progress
      ensures ip in guard.banned ==>
        reply == ErrorJson(403, AccessDeniedError) &&
        guard.requests == old(guard.requests) && progress == old(progress)
      ensures ip !in guard.banned ==>
        guard.requests == old(guard.requests)[ip := Recorded(old(guard.History(ip)), now)]
      ensures ip !in guard.banned && |Recorded(old(guard.History(ip)), now)| > MaxRequests ==>
        reply == ErrorJson(429, RateLimitError) && progress == old(progress)
      ensures ip !in guard.banned && |Recorded(old(guard.History(ip)), now)| <= MaxRequests && req.None? ==>
        reply == NotJson && progress == old(progress)
      ensures ip !in guard.banned && |Recorded(old(guard.History(ip)), now)| <= MaxRequests && req.Some? ==>
        reply == NodeReply(req.value, outcome) &&
        progress == old(progress)[downloadId := if FormatSelector(req.value).Some? then Hooked(0.0, hooks) else 0.0]
    {
      if ip in guard.banned {
        return ErrorJson(403, AccessDeniedError);
      }
      var limited := guard.IsRateLimited(ip, now);
      if limited {
        return ErrorJson(429, RateLimitError);
      }
      if req.None? {
        return NotJson;
      }
      ghost var counted := guard.requests;
      progress := progress[downloadId := 0.0];
      var selector := FormatSelector(req.value);
      if selector.None? {
        return ErrorJson(500, DownloadFailedError);
      }
      for i := 0 to |hooks|
        invariant progress == old(progress)[downloadId := Hooked(0.0, hooks[..i])]
        invariant guard.requests == counted
      {
        assert hooks[..i + 1][..i] == hooks[..i];
        var c := hooks[i];
        ProgressHook(downloadId, c.downloading, c.totalBytes, c.estimate, c.downloaded);
      }
      assert hooks[..|hooks|] == hooks;
      match outcome {
        case DownloadError(message) =>
          if message != "none" {
            reply := ErrorJson(400, message);
          } else {
            reply := ErrorJson(500, DownloadFailedError);
          }
        case Downloaded(filepath) =>
          reply := Attachment(Basename(filepath));
        case Crashed =>
          reply := ErrorJson(500, DownloadFailedError);
      }
    }

    /** A POST to `/download_node` through the whole stack: the middleware,
        then `check_malicious_requests`, then the route. `body` is None when
        the input stream cannot be read; `req` is the JSON read from a body
        that passed, None when it is not JSON. A banned address is refused
        by the middleware with nothing changed; an unreadable or malicious
        body is refused there and bans the address; a stored ban or a
        scanner's headers get 403 from the before-request check, which bans
        the address; every other request reaches the route. */
    method HandleDownload(ip: string, body: Option<seq<byte>>, headers: string, stored: set<string>,
                          now: int, req: Option<DownloadRequest>, downloadId: string,
                          hooks: seq<HookCall>, outcome: Outcome)
      returns (reply: Reply)
      modifies guard`banned, guard`requests, this`progress
      ensures ip in old(guard.banned) ==>
        reply == Refused && guard.banned == old(guard.banned) &&
        guard.requests == old(guard.requests) && progress == old(progress)
      ensures ip !in old(guard.banned) && (body.None? || HasMaliciousPattern(body.value)) ==>
        reply == Refused && guard.banned == old(guard.banned) + {ip} &&
        guard.requests == old(guard.requests) && progress == old(progress)
      ensures ip !in old(guard.banned) && body.Some? && !HasMaliciousPattern(body.value) &&
              (ip in stored || HasSuspiciousHeader(headers)) ==>
        reply == ErrorJson(403, AccessDeniedError) && guard.banned == old(guard.banned) + stored + {ip} &&
        guard.requests == old(guard.requests) && progress == old(progress)
      ensures ip !in old(guard.banned) + stored && body.Some? && !HasMaliciousPattern(body.value) &&
              !HasSuspiciousHeader(headers) ==>
        guard.banned == old(guard.banned) + stored &&
        guard.requests == old(guard.requests)[ip := Recorded(old(guard.History(ip)), now)] &&
        (|Recorded(old(guard.History(ip)), now)| > MaxRequests ==>
          reply == ErrorJson(429, RateLimitError) && progress == old(progress)) &&
        (|Recorded(old(guard.History(ip)), now)| <= MaxRequests && req.None? ==>
          reply == NotJson && progress == old(progress)) &&
        (|Recorded(old(guard.History(ip)), now)| <= MaxRequests && req.Some? ==>
          reply == NodeReply(req.value, outcome) &&
          progress == old(progress)[downloadId := if FormatSelector(req.value).Some? then Hooked(0.0, hooks) else 0.0])
      ensures reply.Attachment? ==>
        ip !in old(guard.banned) + stored && body.Some? && !HasMaliciousPattern(body.value) &&
        !HasSuspiciousHeader(headers) && req.Some? && outcome.Downloaded?
    {
      var passage := guard.Middleware(ip, body);
      if passage.AccessDenied? {
        return Refused;
      }
      var denied := CheckMaliciousRequests(ip, passage.body, headers, stored);
      if denied {
        return ErrorJson(403, AccessDeniedError);
      }
      reply := DownloadNode(ip, now, req, downloadId, hooks, outcome);
      if req.Some? {
        NodeReplySpec(req.value, outcome);
      }
    }

    /** The `progress_hook` yt-dlp calls during the download: while
        downloading with a positive total, the entry of `downloadId` becomes
        the downloaded share in percent; any other call, and a byte count
        of None (a TypeError the hook catches), change nothing; a missing
        count is 0. */
    method ProgressHook(downloadId: string, downloading: bool, totalBytes: Option<int>, estimate: Option<int>,
                        downloaded: Option<int>)
      modifies this`progress
      ensures downloading && HookTotal(totalBytes, estimate) > 0 && downloaded.Some? ==>
        progress == old(progress)[downloadId := Percent(downloaded.value, HookTotal(totalBytes, estimate))]
      ensures !(downloading && HookTotal(totalBytes, estimate) > 0 && downloaded.Some?) ==>
        progress == old(progress)
    {
      if downloading {
        var total := if totalBytes.Some? && totalBytes.value != 0 then totalBytes.value else estimate.GetOr(0);
        if total > 0 && downloaded.Some? {
          progress := progress[downloadId := downloaded.value as real / total as real * 100.0];
        }
      }
    }

    /** `stream_progress`: each poll sends the entry of `id` (0 when there
        is none); a value of 100 or more ends the stream and deletes the
        entry. Between polls the download hook may write the entry:
        `updates[k]` is what it wrote before poll k + 1, if anything. The
        stream here stops after the last update, where the route would keep
        polling. */
    method StreamProgress(id: string, updates: seq<Option<real>>) returns (events: seq<real>, finished: bool)
      modifies this`progress
      ensures 0 < |events| <= |updates| + 1
      ensures events[0] == Progress(old(progress), id)
      ensures forall k :: 0 < k < |events| ==>
        events[k] == if updates[k - 1].Some? then updates[k - 1].value else events[k - 1]
      ensures forall k :: 0 <= k < |events| - 1 ==> events[k] < 100.0
      ensures finished <==> events[|events| - 1] >= 100.0
      ensures finished ==> id !in progress
      ensures !finished ==> |events| == |updates| + 1 && Progress(progress, id) == events[|events| - 1]
      ensures progress - {id} == old(progress) - {id}
    {
      events := [];
      finished := false;
      var i := 0;
      while !finished && i <= |updates|
        invariant 0 <= i <= |updates| + 1 && |events| == i
        invariant progress - {id} == old(progress) - {id}
        invariant i > 0 ==> events[0] == Progress(old(progress), id)
        invariant i == 0 ==> progress == old(progress)
        invariant forall k :: 0 < k < i ==>
          events[k] == if updates[k - 1].Some? then updates[k - 1].value else events[k - 1]
        invariant forall k :: 0 <= k < i - 1 ==> events[k] < 100.0
        invariant finished ==> i > 0 && events[i - 1] >= 100.0 && id !in progress
        invariant !finished && i > 0 ==> events[i - 1] < 100.0
        invariant !finished && 0 < i <= |updates| ==>
          Progress(progress, id) == if updates[i - 1].Some? then updates[i - 1].value else events[i - 1]
        invariant !finished && i == |updates| + 1 ==> Progress(progress, id) == events[i - 1]
        decreases |updates| + 1 - i
      {
        var p := Progress(progress, id);
        events := events + [p];
        if p >= 100.0 {
          progress := progress - {id};
          finished := true;
        } else if i < |updates| && updates[i].Some? {
          progress := progress[id := updates[i].value];
        }
        i := i + 1;
      }
    }
  }
}
