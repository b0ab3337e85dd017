/** The GitHub webhook: signature gate, merge filter, footer parsing and
    task/agent resolution, and the completion entry it records
    (quasi-board/server.py). */
module Webhook {
  import opened Common
  import opened JsonValues
  import opened Ledger
  import opened Board
  import opened Feed

  // ---------------------------------------------------------------------------
  // Signature gate

  /** The keyed digest `hmac.new(secret, body, "sha256").hexdigest()`. */
  type HmacHex = (seq<byte>, seq<byte>) -> string

  /** `_verify_signature(body, sig_header)` with the secret file's contents
      as `secret`; `compare_digest` is plain equality here. */
  function VerifyHmac(secret: seq<byte>, body: seq<byte>, header: string, hmacHex: HmacHex): (ok: bool)
    ensures ok <==> secret != [] && header != [] && header == "sha256=" + hmacHex(secret, body)
  {
    if secret == [] || header == [] then false
    else "sha256=" + hmacHex(secret, body) == header
  }

  /** GitHub's header for a body signed with the board's (non-empty) secret
      passes; with no secret configured nothing passes. */
  lemma HmacGate(secret: seq<byte>, body: seq<byte>, header: string, hmacHex: HmacHex)
    ensures secret != [] ==> VerifyHmac(secret, body, "sha256=" + hmacHex(secret, body), hmacHex)
    ensures secret == [] ==> !VerifyHmac(secret, body, header, hmacHex)
    ensures header != "sha256=" + hmacHex(secret, body) ==> !VerifyHmac(secret, body, header, hmacHex)
  {
  }

  // ---------------------------------------------------------------------------
  // Footer parsing

  const META_KEYS: seq<string> := ["Contribution-Agent", "Task", "Verification"]

  /** The line, stripped, starts with `key + ":"`. */
  predicate Tagged(line: string, key: string) {
    StartsWith(Strip(line), key + ":")
  }

  /** `line.split(":", 1)[1]`: the text after the first colon (a tagged
      line always has one, see TaggedHasColon). */
  function AfterColon(line: string): string {
    if ':' in line then line[IndexOf(line, ':') + 1..] else ""
  }

  /** The value a tagged line gives its key. */
  function MetaValue(line: string): string {
    Strip(AfterColon(line))
  }

  /** Stripping only cuts characters off the ends. */
  lemma StripIsSlice(s: string) returns (off: nat)
    ensures off + |Strip(s)| <= |s| && Strip(s) == s[off..off + |Strip(s)|]
  {
    var t := TrimStart(s, Whitespace);
    var r := TrimEnd(t, Whitespace);
    off := |s| - |t|;
    TrimStartSuffix(s, Whitespace);
    TrimEndPrefix(t, Whitespace);
    assert t == s[off..];
    assert r == t[..|r|];
  }

  lemma TaggedHasColon(line: string, key: string)
    requires Tagged(line, key)
    ensures ':' in line
  {
    var off := StripIsSlice(line);
    var r := Strip(line);
    assert r[|key|] == (key + ":")[|key|] == ':';
    assert line[off + |key|] == r[|key|];
  }

  /** What `_parse_meta` looks at in a line: the line stripped, and the
      value it would give a key. */
  datatype LineInfo = LineInfo(stripped: string, value: string)

  function Info(line: string): LineInfo {
    LineInfo(Strip(line), MetaValue(line))
  }

  predicate HasKey(info: LineInfo, key: string) {
    StartsWith(info.stripped, key + ":")
  }

  /** The inner loop over the keys for one line, after the first |keys| keys. */
  function MetaStep(m: map<string, string>, info: LineInfo, keys: seq<string>): map<string, string> {
    if keys == [] then m
    else
      var before := MetaStep(m, info, keys[..|keys| - 1]);
      var key := keys[|keys| - 1];
      if HasKey(info, key) then before[key := info.value] else before
  }

  /** The outer loop over the lines. */
  function MetaOf(infos: seq<LineInfo>): map<string, string> {
    if infos == [] then map[]
    else MetaStep(MetaOf(infos[..|infos| - 1]), infos[|infos| - 1], META_KEYS)
  }

  function Infos(lines: seq<string>): (r: seq<LineInfo>)
    ensures |r| == |lines| && forall j :: 0 <= j < |lines| ==> r[j] == Info(lines[j])
  {
    if lines == [] then [] else Infos(lines[..|lines| - 1]) + [Info(lines[|lines| - 1])]
  }

  /** `_parse_meta` over the given lines. */
  function Meta(lines: seq<string>): map<string, string> {
    MetaOf(Infos(lines))
  }

  /** The inner loop of `_parse_meta`: every key the stripped line starts
      with (followed by a colon) takes the text after the line's first colon. */
  method ParseLine(before: map<string, string>, line: string) returns (result: map<string, string>)
    ensures result == MetaStep(before, Info(line), META_KEYS)
  {
    result := before;
    var j := 0;
    while j < |META_KEYS|
      invariant 0 <= j <= |META_KEYS|
      invariant result == MetaStep(before, Info(line), META_KEYS[..j])
    {
      var key := META_KEYS[j];
      MetaStepSnoc(before, Info(line), META_KEYS, j);
      if StartsWith(Strip(line), key + ":") {
        TaggedHasColon(line, key);
        var colon := IndexOf(line, ':');
        var rest := line[colon + 1..];
        assert rest == AfterColon(line);
        result := result[key := Strip(rest)];
      }
      j := j + 1;
    }
    assert META_KEYS[..j] == META_KEYS;
  }

  /** `_parse_meta(text)`. */
  method ParseMeta(text: string) returns (result: map<string, string>)
    ensures result == Meta(SplitLines(text))
  {
    var lines := SplitLines(text);
    result := map[];
    var i := 0;
    while i < |lines|
      invariant 0 <= i <= |lines|
      invariant result == Meta(lines[..i])
    {
      result := ParseLine(result, lines[i]);
      MetaSnoc(lines, i);
      i := i + 1;
    }
    assert lines[..|lines|] == lines;
  }

  lemma MetaStepSnoc(m: map<string, string>, info: LineInfo, keys: seq<string>, j: nat)
    requires j < |keys|
    ensures MetaStep(m, info, keys[..j + 1]) ==
      var before := MetaStep(m, info, keys[..j]);
      if HasKey(info, keys[j]) then before[keys[j] := info.value] else before
  {
    assert keys[..j + 1][..j] == keys[..j];
  }

  lemma MetaSnoc(lines: seq<string>, i: nat)
    requires i < |lines|
    ensures Meta(lines[..i + 1]) == MetaStep(Meta(lines[..i]), Info(lines[i]), META_KEYS)
  {
    var infos := Infos(lines[..i + 1]);
    assert lines[..i + 1][..i] == lines[..i];
    assert infos[..i] == Infos(lines[..i]);
  }

  /** What one line does to one key. */
  lemma {:induction false} MetaStepKey(m: map<string, string>, info: LineInfo, keys: seq<string>, key: string)
    ensures var m' := MetaStep(m, info, keys);
      && (key in m' <==> key in m || (key in keys && HasKey(info, key)))
      && (key in keys && HasKey(info, key) ==> m'[key] == info.value)
      && (!(key in keys && HasKey(info, key)) && key in m ==> m'[key] == m[key])
    decreases |keys|
  {
    if keys != [] {
      var init := keys[..|keys| - 1];
      MetaStepKey(m, info, init, key);
      assert keys == init + [keys[|keys| - 1]];
      assert key in keys <==> key in init || key == keys[|keys| - 1];
    }
  }

  /** Line j is the last line that has key. */
  predicate LastWith(infos: seq<LineInfo>, key: string, j: int) {
    0 <= j < |infos| && HasKey(infos[j], key) && forall k :: j < k < |infos| ==> !HasKey(infos[k], key)
  }

  lemma {:induction false} MetaOfPresent(infos: seq<LineInfo>, key: string)
    ensures key in MetaOf(infos) <==> key in META_KEYS && exists j :: 0 <= j < |infos| && HasKey(infos[j], key)
    decreases |infos|
  {
    if infos != [] {
      var init := infos[..|infos| - 1];
      var last := infos[|infos| - 1];
      MetaOfPresent(init, key);
      MetaStepKey(MetaOf(init), last, META_KEYS, key);
      if exists j :: 0 <= j < |infos| && HasKey(infos[j], key) {
        var j :| 0 <= j < |infos| && HasKey(infos[j], key);
        if j < |init| {
          assert init[j] == infos[j];
        }
      }
      forall j | 0 <= j < |init| && HasKey(init[j], key) ensures HasKey(infos[j], key) {
        assert init[j] == infos[j];
      }
    }
  }

  lemma {:induction false} MetaOfLastWins(infos: seq<LineInfo>, key: string)
    requires key in MetaOf(infos)
    ensures exists j :: LastWith(infos, key, j) && MetaOf(infos)[key] == infos[j].value
    decreases |infos|
  {
    var init := infos[..|infos| - 1];
    var last := infos[|infos| - 1];
    MetaOfPresent(infos, key);
    MetaStepKey(MetaOf(init), last, META_KEYS, key);
    if HasKey(last, key) {
      assert LastWith(infos, key, |infos| - 1);
    } else {
      MetaOfLastWins(init, key);
      var j :| LastWith(init, key, j) && MetaOf(init)[key] == init[j].value;
      assert infos[j] == init[j];
      forall k | j < k < |infos| ensures !HasKey(infos[k], key) {
        if k < |init| {
          assert infos[k] == init[k];
        }
      }
      assert LastWith(infos, key, j);
    }
  }

  /** A key is in `_parse_meta`'s result exactly when it is one of the three
      and some line is tagged with it, and then its value is the one the
      last such line gives. */
  lemma MetaLastWins(lines: seq<string>, key: string)
    ensures key in Meta(lines) <==> key in META_KEYS && exists j :: 0 <= j < |lines| && Tagged(lines[j], key)
    ensures key in Meta(lines) ==> exists j :: (0 <= j < |lines| && Tagged(lines[j], key)
      && Meta(lines)[key] == MetaValue(lines[j])
      && forall k :: j < k < |lines| ==> !Tagged(lines[k], key))
  {
    var infos := Infos(lines);
    MetaOfPresent(infos, key);
    forall j | 0 <= j < |lines| ensures HasKey(infos[j], key) == Tagged(lines[j], key) {
      assert infos[j] == Info(lines[j]);
    }
    if key in Meta(lines) {
      MetaOfLastWins(infos, key);
      var j :| LastWith(infos, key, j) && MetaOf(infos)[key] == infos[j].value;
      assert Tagged(lines[j], key);
    }
  }

  // ---------------------------------------------------------------------------
  // The `QUASI-\d+` fallback search

  /** Length of the longest prefix of ASCII digits. */
  function DigitRun(s: string): (n: nat)
    ensures n <= |s|
    ensures forall i :: 0 <= i < n ==> IsDigit(s[i])
    ensures n < |s| ==> !IsDigit(s[n])
  {
    if s == [] || !IsDigit(s[0]) then 0 else 1 + DigitRun(s[1..])
  }

  /** A match of `QUASI-\d+` can start at i. */
  predicate RefAt(s: string, i: int) {
    OccursAt(s, "QUASI-", i) && i + 6 < |s| && IsDigit(s[i + 6])
  }

  /** The first position at or after i where a match starts. */
  function FirstRefFrom(s: string, i: nat): (r: Option<nat>)
    requires i <= |s|
    ensures r.Some? ==> i <= r.value && RefAt(s, r.value) && forall k :: i <= k < r.value ==> !RefAt(s, k)
    ensures r.None? ==> forall k :: i <= k <= |s| ==> !RefAt(s, k)
    decreases |s| - i
  {
    if RefAt(s, i) then Some(i)
    else if i == |s| then None
    else FirstRefFrom(s, i + 1)
  }

  /** `re.search(r"QUASI-\d+", s)`'s matched text: the leftmost "QUASI-"
      that is followed by a digit, together with the whole run of digits
      after it. */
  function FindTaskRef(s: string): (r: Option<string>)
    ensures r.None? <==> forall k :: 0 <= k <= |s| ==> !RefAt(s, k)
    ensures r.Some? ==> exists i :: (0 <= i <= |s| && RefAt(s, i)
      && (forall k :: 0 <= k < i ==> !RefAt(s, k))
      && OccursAt(s, r.value, i)
      && |r.value| > 6 && r.value[..6] == "QUASI-"
      && (forall k :: 6 <= k < |r.value| ==> IsDigit(r.value[k]))
      && (i + |r.value| == |s| || !IsDigit(s[i + |r.value|])))
  {
    match FirstRefFrom(s, 0)
    case None => None
    case Some(i) =>
      var n := DigitRun(s[i + 6..]);
      var m := s[i..i + 6 + n];
      assert m[..6] == s[i..i + 6];
      assert forall k :: 6 <= k < |m| ==> m[k] == s[i + 6..][k - 6];
      assert i + |m| < |s| ==> s[i + |m|] == s[i + 6..][n];
      Some(m)
  }

  lemma {:induction false} DigitRunOf(p: string, rest: string)
    requires forall i :: 0 <= i < |p| ==> IsDigit(p[i])
    requires rest == [] || !IsDigit(rest[0])
    ensures DigitRun(p + rest) == |p|
  {
    if p != [] {
      assert (p + rest)[0] == p[0];
      assert (p + rest)[1..] == p[1..] + rest;
      DigitRunOf(p[1..], rest);
    } else {
      assert p + rest == rest;
    }
  }

  /** A reference at the very start, ended by a non-digit or the end, is
      what the search returns. */
  lemma FindsLeadingRef(p: string, rest: string)
    requires |p| > 6 && p[..6] == "QUASI-" && forall i :: 6 <= i < |p| ==> IsDigit(p[i])
    requires rest == [] || !IsDigit(rest[0])
    ensures FindTaskRef(p + rest) == Some(p)
  {
    var s := p + rest;
    assert s[..6] == p[..6];
    assert s[6] == p[6];
    assert OccursAt(s, "QUASI-", 0);
    assert RefAt(s, 0);
    assert s[6..] == p[6..] + rest;
    DigitRunOf(p[6..], rest);
    assert s[0..6 + |p[6..]|] == p;
  }

  /** The search finds a task id the feed wrote, e.g. in the title
      "QUASI-001: ...". */
  lemma FindsFormattedTaskId(n: nat, rest: string)
    requires rest == [] || !IsDigit(rest[0])
    ensures FindTaskRef(TaskId(n) + rest) == Some(TaskId(n))
  {
    TaskIdDigits(n);
    FindsLeadingRef(TaskId(n), rest);
  }

  // ---------------------------------------------------------------------------
  // Resolution and the recorded entry

  /** The task id: the footer's Task value if non-empty, else the fallback
      search over `title + " " + body`, else "". */
  function ResolveTask(meta: map<string, string>, title: string, body: string): (task: string)
    ensures "Task" in meta && meta["Task"] != "" ==> task == meta["Task"]
    ensures !("Task" in meta && meta["Task"] != "") ==>
      (task == "" <==> FindTaskRef(title + " " + body).None?)
      && (task != "" ==> FindTaskRef(title + " " + body) == Some(task))
  {
    var fromMeta := if "Task" in meta then meta["Task"] else "";
    if fromMeta != "" then fromMeta
    else match FindTaskRef(title + " " + body)
      case Some(m) => m
      case None => ""
  }

  /** The contributing agent: the footer's Contribution-Agent value whenever
      that key is present (even if empty), else the pull request's author. */
  function ResolveAgent(meta: map<string, string>, author: Json): (agent: Json)
    ensures "Contribution-Agent" in meta ==> agent == JStr(meta["Contribution-Agent"])
    ensures "Contribution-Agent" !in meta ==> agent == author
  {
    if "Contribution-Agent" in meta then JStr(meta["Contribution-Agent"]) else author
  }

  /** A footer naming a task wins over any reference in the title; without
      one, a title that starts with a feed task id yields that id. */
  lemma TaskFromTitle(meta: map<string, string>, n: nat, rest: string, body: string)
    requires rest == [] || !IsDigit(rest[0])
    ensures "Task" in meta && meta["Task"] != "" ==> ResolveTask(meta, TaskId(n) + rest, body) == meta["Task"]
    ensures !("Task" in meta && meta["Task"] != "") ==> ResolveTask(meta, TaskId(n) + rest, body) == TaskId(n)
  {
    var r := rest + " " + body;
    assert TaskId(n) + rest + " " + body == TaskId(n) + r;
    assert r == [] || !IsDigit(r[0]) by {
      if rest == [] { assert r[0] == ' '; } else { assert r[0] == rest[0]; }
    }
    FindsFormattedTaskId(n, r);
  }

  /** What a delivery leads to: an immediate reply, or a completion entry to
      append together with the task and agent the reply reports. */
  datatype Decision =
    | Reply(resp: Response)
    | Record(candidate: Entry, task: string, agent: Json)

  function Ignored(fields: map<string, Json>): Response {
    Ok(fields["status" := JStr("ignored")])
  }

  function CompletionRecord(agent: Json, author: Json, task: string, commit: Json,
                            url: Json, title: Json, verification: string): Entry {
    map["type" := JStr("completion"), "contributor_agent" := agent,
        "contributor_github" := author, "task" := JStr(task), "commit_hash" := commit,
        "pr_url" := url, "pr_title" := title, "verification" := JStr(verification)]
  }

  /** The footer fields of a merged pull request's body. */
  function PrBody(pr: Object): Json {
    var raw := Get(pr, "body", JNull);
    if Truthy(raw) then raw else JStr("")
  }

  /** The resolution for a merged pull request `pr`. A `user` that is not an
      object, a `body` that is not a string, and a non-string `title` when
      no footer names the task, all raise (500). Otherwise the entry records
      the resolved agent and task, the author's login, the merge commit, the
      URL, the title and the footer's Verification value. */
  function MergedDecision(pr: Object): (d: Decision)
    ensures d.Record? <==>
      && Get(pr, "user", JObj(map[])).JObj? && PrBody(pr).JStr?
      && var meta := Meta(SplitLines(PrBody(pr).s));
      && (("Task" in meta && meta["Task"] != "") || Get(pr, "title", JStr("")).JStr?)
    ensures d.Reply? ==> d.resp == SERVER_ERROR
    ensures d.Record? ==>
      var meta := Meta(SplitLines(PrBody(pr).s));
      var title := Get(pr, "title", JStr(""));
      var author := Get(Get(pr, "user", JObj(map[])).fields, "login", JStr("unknown"));
      && d.agent == ResolveAgent(meta, author)
      && d.task == ResolveTask(meta, if title.JStr? then title.s else "", PrBody(pr).s)
      && d.candidate == CompletionRecord(d.agent, author, d.task, Get(pr, "merge_commit_sha", JStr("")),
           Get(pr, "html_url", JStr("")), title, if "Verification" in meta then meta["Verification"] else "")
  {
    var body := PrBody(pr);
    var title := Get(pr, "title", JStr(""));
    var url := Get(pr, "html_url", JStr(""));
    var user := Get(pr, "user", JObj(map[]));
    if !user.JObj? then Reply(SERVER_ERROR)
    else
      var author := Get(user.fields, "login", JStr("unknown"));
      var commit := Get(pr, "merge_commit_sha", JStr(""));
      if !body.JStr? then Reply(SERVER_ERROR)
      else
        var meta := Meta(SplitLines(body.s));
        var agent := ResolveAgent(meta, author);
        var fromMeta := if "Task" in meta then meta["Task"] else "";
        if fromMeta == "" && !title.JStr? then Reply(SERVER_ERROR)
        else
          var task := ResolveTask(meta, if title.JStr? then title.s else "", body.s);
          var verification := if "Verification" in meta then meta["Verification"] else "";
          Record(CompletionRecord(agent, author, task, commit, url, title, verification), task, agent)
  }

  /** The entry the webhook records carries exactly the eight fields of the
      source, with the resolved agent and the task as a string. */
  lemma CompletionRecordFields(agent: Json, author: Json, task: string, commit: Json,
                               url: Json, title: Json, verification: string)
    ensures var e := CompletionRecord(agent, author, task, commit, url, title, verification);
      && e.Keys == {"type", "contributor_agent", "contributor_github", "task", "commit_hash",
                    "pr_url", "pr_title", "verification"}
      && e["type"] == JStr("completion") && e["task"] == JStr(task)
      && e["contributor_agent"] == agent && e["contributor_github"] == author
      && e["verification"] == JStr(verification)
  {
  }

  /** `github_webhook`'s decision for a delivery: the raw body with its
      signature header and event header, decoded by `parse`. */
  function Decide(secret: seq<byte>, body: seq<byte>, sigHeader: string, event: string,
                  parse: JsonDecoder, hmacHex: HmacHex): (d: Decision)
    ensures !VerifyHmac(secret, body, sigHeader, hmacHex) ==> d == Reply(HttpError(401, "Invalid signature"))
    ensures VerifyHmac(secret, body, sigHeader, hmacHex) && parse(body).Some? && event != "pull_request" ==>
      d == Reply(Ignored(map["event" := JStr(event)]))
    ensures VerifyHmac(secret, body, sigHeader, hmacHex) && parse(body).None? ==> d == Reply(SERVER_ERROR)
    ensures VerifyHmac(secret, body, sigHeader, hmacHex) && parse(body).Some? && event == "pull_request" ==>
      && (!parse(body).value.JObj? ==> d == Reply(SERVER_ERROR))
      && (parse(body).value.JObj? && Get(parse(body).value.fields, "action", JNull) != JStr("closed") ==>
            d == Reply(Ignored(map["reason" := JStr("not a merge")])))
      && (parse(body).value.JObj? && Get(parse(body).value.fields, "action", JNull) == JStr("closed") ==>
            var pr := Get(parse(body).value.fields, "pull_request", JObj(map[]));
            && (!pr.JObj? ==> d == Reply(SERVER_ERROR))
            && (pr.JObj? && !Truthy(Get(pr.fields, "merged", JNull)) ==>
                  d == Reply(Ignored(map["reason" := JStr("not a merge")])))
            && (pr.JObj? && Truthy(Get(pr.fields, "merged", JNull)) ==> d == MergedDecision(pr.fields)))
    ensures d.Record? ==>
      && VerifyHmac(secret, body, sigHeader, hmacHex)
      && event == "pull_request" && parse(body).Some? && parse(body).value.JObj?
      && Get(parse(body).value.fields, "action", JNull) == JStr("closed")
      && var pr := Get(parse(body).value.fields, "pull_request", JObj(map[]));
      && pr.JObj? && Truthy(Get(pr.fields, "merged", JNull))
      && d == MergedDecision(pr.fields)
  {
    if !VerifyHmac(secret, body, sigHeader, hmacHex) then Reply(HttpError(401, "Invalid signature"))
    else
      var payload := parse(body);
      if payload.None? then Reply(SERVER_ERROR)
      else if event != "pull_request" then Reply(Ignored(map["event" := JStr(event)]))
      else if !payload.value.JObj? then Reply(SERVER_ERROR)
      else
        var p := payload.value.fields;
        var pr := Get(p, "pull_request", JObj(map[]));
        if Get(p, "action", JNull) != JStr("closed") then Reply(Ignored(map["reason" := JStr("not a merge")]))
        else if !pr.JObj? then Reply(SERVER_ERROR)
        else if !Truthy(Get(pr.fields, "merged", JNull)) then Reply(Ignored(map["reason" := JStr("not a merge")]))
        else MergedDecision(pr.fields)
  }

  /** The chain after a delivery. */
  function WebhookChain(chain: seq<Entry>, d: Decision, now: string, h: Digest): seq<Entry> {
    match d
    case Reply(_) => chain
    case Record(candidate, _, _) => Appended(chain, candidate, now, h)
  }

  /** The webhook never writes the ledger unless the request is signed with
      the board's secret and reports a merged pull request. */
  lemma WebhookGate(chain: seq<Entry>, secret: seq<byte>, body: seq<byte>, sigHeader: string,
                    event: string, parse: JsonDecoder, hmacHex: HmacHex, now: string, h: Digest)
    requires WebhookChain(chain, Decide(secret, body, sigHeader, event, parse, hmacHex), now, h) != chain
    ensures secret != [] && sigHeader != [] && sigHeader == "sha256=" + hmacHex(secret, body)
    ensures event == "pull_request" && parse(body).Some? && parse(body).value.JObj?
    ensures Get(parse(body).value.fields, "action", JNull) == JStr("closed")
    ensures var pr := Get(parse(body).value.fields, "pull_request", JObj(map[]));
      && pr.JObj? && Truthy(Get(pr.fields, "merged", JNull))
      && Decide(secret, body, sigHeader, event, parse, hmacHex) == MergedDecision(pr.fields)
  {
  }

  /** The reply `github_webhook` sends once `d` is decided and, for a
      completion, appended. */
  predicate Replies(d: Decision, oldChain: seq<Entry>, chain: seq<Entry>, resp: Response) {
    && (d.Reply? ==> resp == d.resp)
    && (d.Record? && NextPrev(oldChain).None? ==> resp == SERVER_ERROR)
    && (d.Record? && NextPrev(oldChain).Some? ==>
          |chain| > 0 && "entry_hash" in chain[|chain| - 1]
          && resp == Ok(map["status" := JStr("recorded"),
                            "ledger_entry" := JInt(|oldChain| + 1),
                            "entry_hash" := chain[|chain| - 1]["entry_hash"],
                            "task" := JStr(d.task), "agent" := d.agent]))
  }

  /** The reply for a recorded completion, from the entry the ledger sealed. */
  lemma RecordedReplies(d: Decision, oldChain: seq<Entry>, chain: seq<Entry>, e: Entry, resp: Response)
    requires d.Record? && NextPrev(oldChain).Some?
    requires chain == oldChain + [e] && "id" in e && "entry_hash" in e && e["id"] == JInt(|oldChain| + 1)
    requires resp == Ok(map["status" := JStr("recorded"), "ledger_entry" := e["id"],
                            "entry_hash" := e["entry_hash"], "task" := JStr(d.task), "agent" := d.agent])
    ensures Replies(d, oldChain, chain, resp)
  {
    assert chain[|chain| - 1] == e;
  }

  /** The merged-pull-request part of the webhook: resolve the footer and the
      task, then append the completion entry. */
  method RecordMerged(store: LedgerStore, pr: Object, now: string) returns (resp: Response)
    modifies store`chain
    ensures store.chain == WebhookChain(old(store.chain), MergedDecision(pr), now, store.hash)
    ensures Replies(MergedDecision(pr), old(store.chain), store.chain, resp)
  {
    ghost var d := MergedDecision(pr);
    var prBody := PrBody(pr);
    var title := Get(pr, "title", JStr(""));
    var url := Get(pr, "html_url", JStr(""));
    var user := Get(pr, "user", JObj(map[]));
    if !user.JObj? {
      assert d == Reply(SERVER_ERROR);
      return SERVER_ERROR;
    }
    var author := Get(user.fields, "login", JStr("unknown"));
    var commit := Get(pr, "merge_commit_sha", JStr(""));
    if !prBody.JStr? {
      assert d == Reply(SERVER_ERROR);
      return SERVER_ERROR;
    }
    var meta := ParseMeta(prBody.s);
    var agent := if "Contribution-Agent" in meta then JStr(meta["Contribution-Agent"]) else author;
    var task := if "Task" in meta then meta["Task"] else "";
    if task == "" {
      if !title.JStr? {
        assert d == Reply(SERVER_ERROR);
        return SERVER_ERROR;
      }
      var m := FindTaskRef(title.s + " " + prBody.s);
      if m.Some? {
        task := m.value;
      }
    }
    assert task == ResolveTask(meta, if title.JStr? then title.s else "", prBody.s);
    assert agent == ResolveAgent(meta, author);
    var verification := if "Verification" in meta then meta["Verification"] else "";
    var candidate := CompletionRecord(agent, author, task, commit, url, title, verification);
    assert d == Record(candidate, task, agent);
    var r := store.Append(candidate, now);
    assert store.chain == WebhookChain(old(store.chain), d, now, store.hash);
    if r.Failure? {
      return SERVER_ERROR;
    }
    resp := Ok(map["status" := JStr("recorded"), "ledger_entry" := r.value["id"],
                   "entry_hash" := r.value["entry_hash"], "task" := JStr(task), "agent" := agent]);
    RecordedReplies(d, old(store.chain), store.chain, r.value, resp);
  }

  /** `POST /quasi-board/github-webhook`. */
  method GithubWebhook(store: LedgerStore, secret: seq<byte>, body: seq<byte>, sigHeader: string,
                       event: string, parse: JsonDecoder, hmacHex: HmacHex, now: string)
    returns (resp: Response)
    modifies store`chain
    ensures var d := Decide(secret, body, sigHeader, event, parse, hmacHex);
      && store.chain == WebhookChain(old(store.chain), d, now, store.hash)
      && Replies(d, old(store.chain), store.chain, resp)
  {
    if !VerifyHmac(secret, body, sigHeader, hmacHex) {
      return HttpError(401, "Invalid signature");
    }
    var payload := parse(body);
    if payload.None? {
      return SERVER_ERROR;
    }
    if event != "pull_request" {
      return Ignored(map["event" := JStr(event)]);
    }
    if !payload.value.JObj? {
      return SERVER_ERROR;
    }
    var p := payload.value.fields;
    var pr := Get(p, "pull_request", JObj(map[]));
    if Get(p, "action", JNull) != JStr("closed") {
      return Ignored(map["reason" := JStr("not a merge")]);
    }
    if !pr.JObj? {
      return SERVER_ERROR;
    }
    if !Truthy(Get(pr.fields, "merged", JNull)) {
      return Ignored(map["reason" := JStr("not a merge")]);
    }
    resp := RecordMerged(store, pr.fields, now);
  }
}
