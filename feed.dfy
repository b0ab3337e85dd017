/** The task feed's presentation of a task and the WebFinger lookup
    (quasi-board/server.py). */
module Feed {
  import opened Common
  import opened JsonValues
  import opened Board

  /** `str(n)` of a Python int. */
  function IntStr(n: int): (s: string)
    ensures n >= 0 ==> s == Decimal(n)
    ensures n < 0 ==> s == "-" + Decimal(-n)
  {
    if n >= 0 then Decimal(n) else "-" + Decimal(-n)
  }

  /** `f"{n:03d}"`: the decimal digits of n, zero-padded so that sign and
      digits together are at least three characters wide. */
  function Pad3(n: int): string {
    if n >= 0 then
      var d := Decimal(n);
      Zeros(if |d| < 3 then 3 - |d| else 0) + d
    else
      "-" + NegativeDigits(n)
  }

  /** `f"QUASI-{task_id:03d}"`. */
  function TaskId(n: int): string {
    "QUASI-" + Pad3(n)
  }

  /** A task number n >= 0 is rendered as "QUASI-" and the shortest digit
      string of width at least three that denotes n: exactly three digits
      below 1000, and no leading zero when wider. */
  lemma TaskIdDigits(n: nat)
    ensures |TaskId(n)| >= 9 && TaskId(n)[..6] == "QUASI-"
    ensures forall i :: 6 <= i < |TaskId(n)| ==> IsDigit(TaskId(n)[i])
    ensures DigitsValue(TaskId(n)[6..]) == n
    ensures n < 1000 ==> |TaskId(n)| == 9
    ensures |TaskId(n)| > 9 ==> TaskId(n)[6] != '0'
  {
    var d := Decimal(n);
    var z := if |d| < 3 then 3 - |d| else 0;
    assert TaskId(n)[6..] == Zeros(z) + d;
    ZerosValue(z, d);
    DecimalValue(n);
    DecimalLength(n);
    DecimalLeading(n);
  }

  /** The digits f"{n:03d}" writes after the sign of a negative n. */
  function NegativeDigits(n: int): (digits: string)
    requires n < 0
    ensures |digits| >= 2 && forall i :: 0 <= i < |digits| ==> IsDigit(digits[i])
    ensures DigitsValue(digits) == -n
  {
    var d := Decimal(-n);
    var z := if |d| < 2 then 2 - |d| else 0;
    ZerosValue(z, d);
    DecimalValue(-n);
    Zeros(z) + d
  }

  /** A negative number keeps its sign in front of the padded digits. */
  lemma TaskIdNegative(n: int)
    requires n < 0
    ensures |TaskId(n)| >= 9 && TaskId(n)[..7] == "QUASI--"
    ensures TaskId(n)[7..] == NegativeDigits(n)
  {
    var t := TaskId(n);
    assert t == "QUASI-" + ("-" + NegativeDigits(n));
  }

  /** The character after "QUASI-" is '-' exactly for negative numbers. */
  lemma TaskIdSign(n: int)
    ensures |TaskId(n)| > 6 && (TaskId(n)[6] == '-' <==> n < 0)
  {
    if n >= 0 {
      TaskIdDigits(n);
      assert IsDigit(TaskId(n)[6]);
    } else {
      TaskIdNegative(n);
      assert TaskId(n)[..7][6] == '-';
    }
  }

  /** Different task numbers never share a task id. */
  lemma TaskIdInjective(a: int, b: int)
    requires TaskId(a) == TaskId(b)
    ensures a == b
  {
    TaskIdSign(a);
    TaskIdSign(b);
    if a >= 0 {
      TaskIdDigits(a);
      TaskIdDigits(b);
    } else {
      TaskIdNegative(a);
      TaskIdNegative(b);
    }
  }

  /** A JSON value Python formats with `03d`: an integer, or a boolean,
      which Python treats as the integer 0 or 1. */
  predicate IntLike(j: Json) {
    j.JInt? || j.JBool?
  }

  /** The integer `03d` formats. */
  function IntValue(j: Json): int
    requires IntLike(j)
  {
    if j.JInt? then j.i else if j.b then 1 else 0
  }

  /** Python's `str` of an integer or boolean, as an f-string writes it. */
  function PyStr(j: Json): string
    requires IntLike(j)
  {
    if j.JInt? then IntStr(j.i) else if j.b then "True" else "False"
  }

  /** `task_to_ap(task)` with the clock's reading `published`. None when the
      task lacks number, title or html_url (KeyError) or its number is
      neither an integer nor a boolean (the `03d` format raises). */
  function TaskToAp(task: Object, published: string): (r: Option<Object>)
    ensures r.None? <==>
      "number" !in task || "title" !in task || "html_url" !in task || !IntLike(task["number"])
    ensures r.Some? ==>
      var number := task["number"];
      && "type" in r.value && "id" in r.value && "name" in r.value && "url" in r.value
      && "content" in r.value && "quasi:taskId" in r.value && "quasi:status" in r.value
      && "quasi:claimUrl" in r.value
      && r.value["type"] == JStr("Note")
      && r.value["id"] == JStr(ACTOR_URL + "/tasks/" + PyStr(number))
      && r.value["quasi:taskId"] == JStr(TaskId(IntValue(number)))
      && r.value["quasi:status"] == JStr("open")
      && r.value["quasi:claimUrl"] == JStr(INBOX_URL)
      && r.value["name"] == task["title"] && r.value["url"] == task["html_url"]
      && r.value["content"] == Get(task, "body", JStr(""))
  {
    if "number" !in task || "title" !in task || "html_url" !in task || !IntLike(task["number"]) then
      None
    else
      var number := task["number"];
      Some(map[
        "@context" := JStr("https://www.w3.org/ns/activitystreams"),
        "attributedTo" := JStr(ACTOR_URL),
        "quasi:ledgerUrl" := JStr(ACTOR_URL + "/ledger"),
        "published" := JStr(published),
        "content" := Get(task, "body", JStr("")),
        "name" := task["title"],
        "url" := task["html_url"],
        "quasi:status" := JStr("open"),
        "quasi:claimUrl" := JStr(INBOX_URL),
        "id" := JStr(ACTOR_URL + "/tasks/" + PyStr(number)),
        "type" := JStr("Note"),
        "quasi:taskId" := JStr(TaskId(IntValue(number)))])
  }

  /** A boolean task number is formatted as 0 or 1: `True` gives the task id
      QUASI-001 and the task URL ending in "True". */
  lemma TaskToApBoolean(title: Json, url: Json, published: string)
    ensures var r := TaskToAp(map["number" := JBool(true), "title" := title, "html_url" := url], published);
      && r.Some? && r.value["quasi:taskId"] == JStr("QUASI-001")
      && r.value["id"] == JStr(ACTOR_URL + "/tasks/True")
  {
    assert Decimal(1) == "1";
    assert Zeros(2) == "00";
    assert TaskId(IntValue(JBool(true))) == "QUASI-001";
    assert PyStr(JBool(true)) == "True";
  }

  const ACCOUNT: string := "acct:quasi-board@" + DOMAIN

  /** `GET /.well-known/webfinger?resource=...`: 404 unless the resource
      mentions "quasi-board"; otherwise the JRD naming the actor. */
  function Webfinger(resource: string): (r: Response)
    ensures r.status == 404 <==> !Contains(resource, "quasi-board")
    ensures r.status != 404 ==>
      && r.status == 200 && r.body.JObj? && r.body.fields.Keys == {"subject", "links"}
      && r.body.fields["subject"] == JStr(ACCOUNT)
      && r.body.fields["links"] == JArr([JObj(map["rel" := JStr("self"),
           "type" := JStr("application/activity+json"), "href" := JStr(ACTOR_URL)])])
  {
    if !Contains(resource, "quasi-board") then HttpError(404, "Not Found")
    else
      Ok(map["subject" := JStr(ACCOUNT),
             "links" := JArr([JObj(map["rel" := JStr("self"),
                                      "type" := JStr("application/activity+json"),
                                      "href" := JStr(ACTOR_URL)])])])
  }

  /** The account a WebFinger answer names is itself a resource the
      endpoint answers for. */
  lemma WebfingerFindsItself()
    ensures Webfinger(ACCOUNT).status == 200
    ensures Webfinger(Webfinger(ACCOUNT).body.fields["subject"].s).status == 200
  {
    assert OccursAt(ACCOUNT, "quasi-board", 5);
  }
}
