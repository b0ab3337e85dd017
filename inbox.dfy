/** The inbox handler's dispatch on activity type and the two ledger views
    (quasi-board/server.py). */
module Inbox {
  import opened Common
  import opened JsonValues
  import opened Ledger
  import opened Board

  /** The activities the inbox tells apart. */
  datatype Activity =
    | Follow
    | Claim(task: Json, agent: Json)
    | Completion(agent: Json, task: Json, commit: Json, prUrl: Json)
    | Other

  /** `body.get("type", "")`. */
  function ActivityType(body: Object): Json {
    Get(body, "type", JStr(""))
  }

  /** The task a claim names: quasi:taskId if the key is there, else object,
      else the empty string. */
  function ClaimedTask(body: Object): Json {
    Get(body, "quasi:taskId", Get(body, "object", JStr("")))
  }

  /** The sender: actor if the key is there, else "unknown". */
  function Sender(body: Object): Json {
    Get(body, "actor", JStr("unknown"))
  }

  function Classify(body: Object): Activity {
    var t := ActivityType(body);
    if t == JStr("Follow") then Follow
    else if t == JStr("Announce") then Claim(ClaimedTask(body), Sender(body))
    else if t == JStr("Create") && Get(body, "quasi:type", JNull) == JStr("completion") then
      Completion(Sender(body), Get(body, "quasi:taskId", JStr("")),
                 Get(body, "quasi:commitHash", JNull), Get(body, "quasi:prUrl", JNull))
    else Other
  }

  function ClaimEntry(task: Json, agent: Json): Entry {
    map["type" := JStr("claim"), "contributor_agent" := agent, "task" := task,
        "commit_hash" := JNull, "pr_url" := JNull]
  }

  function CompletionEntry(agent: Json, task: Json, commit: Json, prUrl: Json): Entry {
    map["type" := JStr("completion"), "contributor_agent" := agent, "task" := task,
        "commit_hash" := commit, "pr_url" := prUrl]
  }

  /** The candidate entry an inbox request makes the board append, if any. */
  function InboxAppends(body: Json): (r: Option<Entry>)
    ensures r.Some? ==> body.JObj?
    ensures body.JObj? ==>
      var f := body.fields;
      var t := if "type" in f then f["type"] else JStr("");
      var task := if "quasi:taskId" in f then f["quasi:taskId"] else if "object" in f then f["object"] else JStr("");
      var agent := if "actor" in f then f["actor"] else JStr("unknown");
      var completion := t == JStr("Create") && "quasi:type" in f && f["quasi:type"] == JStr("completion");
      && (t == JStr("Announce") ==> r == Some(ClaimEntry(task, agent)))
      && (completion ==> r == Some(CompletionEntry(
            agent,
            if "quasi:taskId" in f then f["quasi:taskId"] else JStr(""),
            if "quasi:commitHash" in f then f["quasi:commitHash"] else JNull,
            if "quasi:prUrl" in f then f["quasi:prUrl"] else JNull)))
      && (t != JStr("Announce") && !completion ==> r == None)
  {
    if !body.JObj? then None
    else
      match Classify(body.fields)
      case Claim(task, agent) => Some(ClaimEntry(task, agent))
      case Completion(agent, task, commit, prUrl) => Some(CompletionEntry(agent, task, commit, prUrl))
      case _ => None
  }

  /** The chain after the inbox handled `body`. */
  function InboxChain(chain: seq<Entry>, body: Json, now: string, h: Digest): seq<Entry> {
    match InboxAppends(body)
    case None => chain
    case Some(candidate) => Appended(chain, candidate, now, h)
  }

  /** The reply the inbox sends for the decoded body `body`, given the chain
      before and after. */
  predicate InboxReplies(body: Json, oldChain: seq<Entry>, chain: seq<Entry>, resp: Response) {
    && (!body.JObj? ==> resp == SERVER_ERROR)
    && (body.JObj? && Classify(body.fields) == Follow ==>
          resp == Ok(map["status" := JStr("following"), "outbox" := JStr(OUTBOX_URL)]))
    && (body.JObj? && Classify(body.fields) == Other ==> resp == Ok(map["status" := JStr("accepted")]))
    && (InboxAppends(body).Some? && NextPrev(oldChain).None? ==> resp == SERVER_ERROR)
    && (InboxAppends(body).Some? && NextPrev(oldChain).Some? ==>
          && |chain| == |oldChain| + 1
          && "entry_hash" in chain[|chain| - 1]
          && resp == Ok(map["status" := JStr(if Classify(body.fields).Claim? then "claimed" else "recorded"),
                            "ledger_entry" := JInt(|oldChain| + 1),
                            "entry_hash" := chain[|chain| - 1]["entry_hash"]]))
  }

  /** `POST /quasi-board/inbox` for the raw request body `raw`, decoded by
      `parse` (`await request.json()`). A body that is not JSON makes the
      decoder raise. */
  method HandleInbox(store: LedgerStore, raw: seq<byte>, parse: JsonDecoder, now: string)
    returns (resp: Response)
    modifies store`chain
    ensures parse(raw).None? ==> store.chain == old(store.chain) && resp == SERVER_ERROR
    ensures parse(raw).Some? ==>
      && store.chain == InboxChain(old(store.chain), parse(raw).value, now, store.hash)
      && InboxReplies(parse(raw).value, old(store.chain), store.chain, resp)
  {
    var decoded := parse(raw);
    if decoded.None? {
      return SERVER_ERROR;
    }
    resp := HandleActivity(store, decoded.value, now);
  }

  /** The inbox's handling of a decoded body. One that is not a JSON object
      makes `body.get` raise. */
  method HandleActivity(store: LedgerStore, body: Json, now: string) returns (resp: Response)
    modifies store`chain
    ensures store.chain == InboxChain(old(store.chain), body, now, store.hash)
    ensures InboxReplies(body, old(store.chain), store.chain, resp)
  {
    if !body.JObj? {
      return SERVER_ERROR;
    }
    var activity := Classify(body.fields);
    match activity {
      case Follow =>
        resp := Ok(map["status" := JStr("following"), "outbox" := JStr(OUTBOX_URL)]);
      case Claim(task, agent) =>
        var r := store.Append(ClaimEntry(task, agent), now);
        if r.Failure? {
          return SERVER_ERROR;
        }
        resp := Ok(map["status" := JStr("claimed"), "ledger_entry" := r.value["id"],
                       "entry_hash" := r.value["entry_hash"]]);
      case Completion(agent, task, commit, prUrl) =>
        var r := store.Append(CompletionEntry(agent, task, commit, prUrl), now);
        if r.Failure? {
          return SERVER_ERROR;
        }
        resp := Ok(map["status" := JStr("recorded"), "ledger_entry" := r.value["id"],
                       "entry_hash" := r.value["entry_hash"]]);
      case Other =>
        resp := Ok(map["status" := JStr("accepted")]);
    }
  }

  /** Whatever reaches the inbox, a valid chain stays valid, keeps every
      earlier entry, and grows by at most one entry. */
  lemma InboxKeepsChainValid(chain: seq<Entry>, body: Json, now: string, h: Digest)
    requires ChainValid(chain, h)
    ensures var c := InboxChain(chain, body, now, h);
      ChainValid(c, h) && |chain| <= |c| <= |chain| + 1 && c[..|chain|] == chain
  {
    match InboxAppends(body)
    case None =>
      assert chain[..|chain|] == chain;
    case Some(candidate) =>
      AppendKeepsChainValid(chain, candidate, now, h);
  }

  // ---------------------------------------------------------------------------
  // Ledger views

  /** verify_ledger raises: some entry lacks a field while all before it pass. */
  predicate VerifyRaises(chain: seq<Entry>, h: Digest) {
    exists k | 0 <= k < |chain| :: SoundBefore(chain, k, h) && CheckEntry(chain, k, h).Missing?
  }

  function ChainJson(chain: seq<Entry>): (j: Json)
    ensures j.JArr? && |j.items| == |chain|
    ensures forall i :: 0 <= i < |chain| ==> j.items[i] == JObj(chain[i])
  {
    if chain == [] then JArr([])
    else JArr([JObj(chain[0])] + ChainJson(chain[1..]).items)
  }

  /** A verification outcome that is not an exception tells validity. */
  lemma VerifyVerdict(chain: seq<Entry>, h: Digest, r: Result<bool, Fault>)
    requires r == Success(true) <==> ChainValid(chain, h)
    requires r == Success(false) ==>
      exists k :: 0 <= k < |chain| && SoundBefore(chain, k, h) && CheckEntry(chain, k, h) == Mismatch
    requires r.Failure? ==>
      r.error.index < |chain| && SoundBefore(chain, r.error.index, h)
      && CheckEntry(chain, r.error.index, h) == Missing(r.error.key)
    ensures r.Failure? <==> VerifyRaises(chain, h)
    ensures r.Success? ==> r.value == ChainValid(chain, h)
  {
    if r.Failure? {
      var k := r.error.index;
      assert SoundBefore(chain, k, h) && CheckEntry(chain, k, h).Missing?;
    } else if !r.value {
      var k :| 0 <= k < |chain| && SoundBefore(chain, k, h) && CheckEntry(chain, k, h) == Mismatch;
      forall k' | 0 <= k' < |chain|
        ensures !(SoundBefore(chain, k', h) && CheckEntry(chain, k', h).Missing?)
      {
        if k' < k {
          assert CheckEntry(chain, k', h) == Sound;
        } else if k' > k {
          assert CheckEntry(chain, k, h) != Sound;
          assert !SoundBefore(chain, k', h);
        }
      }
    } else {
      assert SoundBefore(chain, |chain|, h);
      forall k' | 0 <= k' < |chain| ensures !CheckEntry(chain, k', h).Missing? {
        assert CheckEntry(chain, k', h) == Sound;
      }
      assert !VerifyRaises(chain, h);
    }
  }

  /** `GET /quasi-board/ledger`. */
  method LedgerView(store: LedgerStore) returns (resp: Response)
    ensures VerifyRaises(store.chain, store.hash) ==> resp == SERVER_ERROR
    ensures !VerifyRaises(store.chain, store.hash) ==>
      resp == Ok(map["quasi:ledger" := JStr(LEDGER_URL),
                     "quasi:valid" := JBool(ChainValid(store.chain, store.hash)),
                     "quasi:entries" := JInt(|store.chain|),
                     "quasi:genesisSlots" := JInt(GENESIS_SLOTS),
                     "quasi:slotsRemaining" := JInt(SlotsRemaining(store.chain)),
                     "chain" := ChainJson(store.chain)])
  {
    var chain := store.chain;
    var r := store.Verify();
    VerifyVerdict(store.chain, store.hash, r);
    if r.Failure? {
      return SERVER_ERROR;
    }
    resp := Ok(map["quasi:ledger" := JStr(LEDGER_URL),
                   "quasi:valid" := JBool(r.value),
                   "quasi:entries" := JInt(|chain|),
                   "quasi:genesisSlots" := JInt(GENESIS_SLOTS),
                   "quasi:slotsRemaining" := JInt(SlotsRemaining(chain)),
                   "chain" := ChainJson(chain)]);
  }

  /** `GET /quasi-board/ledger/verify`. */
  method VerifyView(store: LedgerStore) returns (resp: Response)
    ensures VerifyRaises(store.chain, store.hash) ==> resp == SERVER_ERROR
    ensures !VerifyRaises(store.chain, store.hash) ==>
      resp == Ok(map["valid" := JBool(ChainValid(store.chain, store.hash)),
                     "entries" := JInt(|store.chain|)])
  {
    var r := store.Verify();
    VerifyVerdict(store.chain, store.hash, r);
    if r.Failure? {
      return SERVER_ERROR;
    }
    resp := Ok(map["valid" := JBool(r.value), "entries" := JInt(|store.chain|)]);
  }
}
