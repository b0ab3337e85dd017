/** Signing and verifying federated ActivityPub requests with the
    draft-cavage HTTP Signatures scheme (quasi-board-extensions/http_signatures.py).

    SHA-256, base64 and RSA PKCS#1 v1.5 are not modelled: they are the
    function fields of a `Crypto` value every operation takes. */
module HttpSignatures {
  import opened Common

  /** The primitives the module calls into. `available` is false when the
      cryptography package cannot be imported. `rsaSign(pem, msg)` is None
      when the private key does not load; `rsaVerify(pem, sig, msg)` is
      false when the public key does not load or the signature is wrong.
      Messages are strings: their UTF-8 encoding is part of the primitive. */
  datatype Crypto = Crypto(
    available: bool,
    sha256: seq<byte> -> seq<byte>,
    b64encode: seq<byte> -> string,
    b64decode: string -> Option<seq<byte>>,
    rsaSign: (string, string) -> Option<seq<byte>>,
    rsaVerify: (string, seq<byte>, string) -> bool)

  type Headers = map<string, string>

  /** The headers every signature covers, in signing order. */
  const SIGNED_HEADERS: seq<string> := ["(request-target)", "host", "date", "digest"]

  /** The signature used when the cryptography package is missing. */
  const STUB_SIGNATURE: string := "STUB_SIGNATURE_cryptography_not_installed"

  /** The Digest header value for a body. */
  function DigestOf(c: Crypto, body: seq<byte>): string {
    "SHA-256=" + c.b64encode(c.sha256(body))
  }

  // ---------------------------------------------------------------------------
  // The signed string

  /** `headers.get(h, headers.get(h.title(), ''))`. */
  function HeaderValue(headers: Headers, h: string): (v: string)
    ensures h in headers ==> v == headers[h]
    ensures h !in headers && Title(h) in headers ==> v == headers[Title(h)]
    ensures h !in headers && Title(h) !in headers ==> v == ""
  {
    if h in headers then headers[h] else if Title(h) in headers then headers[Title(h)] else ""
  }

  /** The line one covered header contributes. */
  function SignedLine(headers: Headers, verb: string, path: string, h: string): string {
    if h == "(request-target)" then "(request-target): " + Lower(verb) + " " + path
    else h + ": " + HeaderValue(headers, h)
  }

  function SignedLines(headers: Headers, verb: string, path: string, names: seq<string>): (lines: seq<string>)
    ensures |lines| == |names|
    ensures forall i :: 0 <= i < |names| ==> lines[i] == SignedLine(headers, verb, path, names[i])
  {
    if names == [] then []
    else SignedLines(headers, verb, path, names[..|names| - 1])
         + [SignedLine(headers, verb, path, names[|names| - 1])]
  }

  /** The string a signature covers: one line per covered header. */
  function SignedString(headers: Headers, verb: string, path: string, names: seq<string>): string {
    Join(SignedLines(headers, verb, path, names), "\n")
  }

  /** `_build_signed_string`. */
  method BuildSignedString(headers: Headers, verb: string, path: string, names: seq<string>)
    returns (s: string)
    ensures s == SignedString(headers, verb, path, names)
  {
    var lines: seq<string> := [];
    var i := 0;
    while i < |names|
      invariant 0 <= i <= |names|
      invariant lines == SignedLines(headers, verb, path, names[..i])
    {
      assert names[..i + 1][..i] == names[..i];
      lines := lines + [SignedLine(headers, verb, path, names[i])];
      i := i + 1;
    }
    assert names[..i] == names;
    s := Join(lines, "\n");
  }

  /** As long as no covered line holds a newline, the signed string splits
      back into exactly one line per covered header, in order. */
  lemma SignedStringLines(headers: Headers, verb: string, path: string, names: seq<string>)
    requires names != []
    requires forall i :: 0 <= i < |names| ==> '\n' !in SignedLine(headers, verb, path, names[i])
    ensures Split(SignedString(headers, verb, path, names), '\n') == SignedLines(headers, verb, path, names)
  {
    var lines := SignedLines(headers, verb, path, names);
    assert "\n" == ['\n'];
    SplitJoin(lines, '\n');
  }

  /** The string `sign_request` signs. */
  function SigningString(verb: string, path: string, host: string, date: string, digest: string): string {
    var target := "(request-target): " + Lower(verb) + " " + path;
    target + "\n" + ("host: " + host) + "\n" + ("date: " + date) + "\n" + ("digest: " + digest)
  }

  // ---------------------------------------------------------------------------
  // Signing

  /** One `key="value"` parameter of the Signature header. */
  function Quoted(key: string, value: string): string {
    key + "=\"" + value + "\""
  }

  /** The covered-header list sign_request announces. */
  const COVERED: string := "(request-target) host date digest"

  function KeyIdParam(keyId: string): string {
    Quoted("keyId", keyId)
  }

  const ALGORITHM_PARAM: string := Quoted("algorithm", "rsa-sha256")
  const HEADERS_PARAM: string := Quoted("headers", COVERED)

  function SignatureParam(signature: string): string {
    Quoted("signature", signature)
  }

  /** The Signature header for a key id and a base64 signature. */
  function SignatureHeader(keyId: string, signature: string): string {
    KeyIdParam(keyId) + "," + ALGORITHM_PARAM + "," + HEADERS_PARAM + "," + SignatureParam(signature)
  }

  /** `sign_request` with the formatted current time `date`. None when the
      private key cannot be loaded or used, which sign_request lets
      escape as an exception. */
  function SignRequest(c: Crypto, verb: string, path: string, host: string, body: seq<byte>,
                       pem: string, keyId: string, date: string): (r: Option<Headers>)
    ensures r.None? <==>
      c.available && c.rsaSign(pem, SigningString(verb, path, host, date, DigestOf(c, body))).None?
    ensures r.Some? ==>
      && r.value.Keys == {"Date", "Digest", "Signature"}
      && r.value["Date"] == date && r.value["Digest"] == DigestOf(c, body)
    ensures r.Some? && !c.available ==> r.value["Signature"] == SignatureHeader(keyId, STUB_SIGNATURE)
    ensures r.Some? && c.available ==>
      var sig := c.rsaSign(pem, SigningString(verb, path, host, date, DigestOf(c, body)));
      sig.Some? && r.value["Signature"] == SignatureHeader(keyId, c.b64encode(sig.value))
  {
    var digest := DigestOf(c, body);
    var signed := SigningString(verb, path, host, date, digest);
    var signature :=
      if !c.available then Some(STUB_SIGNATURE)
      else match c.rsaSign(pem, signed)
        case None => None
        case Some(bytes) => Some(c.b64encode(bytes));
    match signature
    case None => None
    case Some(sig) =>
      Some(map["Date" := date, "Digest" := digest, "Signature" := SignatureHeader(keyId, sig)])
  }

  // ---------------------------------------------------------------------------
  // Parsing the Signature header

  /** `part.partition("=")` without the separator. */
  function Partition(part: string): (kv: (string, string))
    ensures '=' !in part ==> kv == (part, "")
    ensures '=' in part ==> '=' !in kv.0 && part == kv.0 + "=" + kv.1
  {
    if '=' in part then
      var i := IndexOf(part, '=');
      assert part == part[..i] + "=" + part[i + 1..];
      (part[..i], part[i + 1..])
    else (part, "")
  }

  /** Partition finds the first `=`. */
  lemma PartitionOf(k: string, v: string)
    requires '=' !in k
    ensures Partition(k + "=" + v) == (k, v)
  {
    IndexOfJoined(k, '=', v);
    var s := k + "=" + v;
    assert s[..|k|] == k;
    assert s[|k| + 1..] == v;
  }

  /** One `key=value` parameter after stripping. */
  datatype Param = Param(key: string, value: string)

  /** `k.strip()`, `v.strip().strip('"')`. */
  function ParamOf(part: string): Param {
    var kv := Partition(part);
    Param(Strip(kv.0), StripQuotes(Strip(kv.1)))
  }

  function ParamsOf(parts: seq<string>): (ps: seq<Param>)
    ensures |ps| == |parts|
    ensures forall i :: 0 <= i < |parts| ==> ps[i] == ParamOf(parts[i])
  {
    if parts == [] then [] else ParamsOf(parts[..|parts| - 1]) + [ParamOf(parts[|parts| - 1])]
  }

  /** The dictionary the parameters build, later ones overwriting earlier. */
  function ParamMap(ps: seq<Param>): map<string, string> {
    if ps == [] then map[]
    else ParamMap(ps[..|ps| - 1])[ps[|ps| - 1].key := ps[|ps| - 1].value]
  }

  function SignatureParams(sigHeader: string): map<string, string> {
    ParamMap(ParamsOf(Split(sigHeader, ',')))
  }

  /** The parameter loop of `verify_signature`. */
  method ParseParams(sigHeader: string) returns (params: map<string, string>)
    ensures params == SignatureParams(sigHeader)
  {
    var parts := Split(sigHeader, ',');
    params := map[];
    var i := 0;
    while i < |parts|
      invariant 0 <= i <= |parts|
      invariant params == ParamMap(ParamsOf(parts[..i]))
    {
      var p := ParamOf(parts[i]);
      ParamsOfSnoc(parts, i);
      ParamMapLast(ParamsOf(parts[..i]), p);
      params := params[p.key := p.value];
      i := i + 1;
    }
    assert parts[..i] == parts;
  }

  lemma ParamsOfSnoc(parts: seq<string>, i: nat)
    requires i < |parts|
    ensures ParamsOf(parts[..i + 1]) == ParamsOf(parts[..i]) + [ParamOf(parts[i])]
  {
    assert parts[..i + 1][..i] == parts[..i];
  }

  /** `j` is the last parameter named `key`. */
  predicate LastNamed(ps: seq<Param>, key: string, j: int) {
    0 <= j < |ps| && ps[j].key == key && forall k :: j < k < |ps| ==> ps[k].key != key
  }

  /** A name is in the dictionary exactly when some parameter has it, and
      then its value is the one given last. */
  lemma {:induction false} ParamMapLastWins(ps: seq<Param>, key: string)
    ensures key in ParamMap(ps) <==> exists j :: 0 <= j < |ps| && ps[j].key == key
    ensures key in ParamMap(ps) ==> exists j :: LastNamed(ps, key, j) && ParamMap(ps)[key] == ps[j].value
  {
    if ps != [] {
      var init := ps[..|ps| - 1];
      var n := |ps| - 1;
      ParamMapLastWins(init, key);
      if ps[n].key == key {
        assert LastNamed(ps, key, n);
      } else {
        if key in ParamMap(init) {
          var j :| LastNamed(init, key, j) && ParamMap(init)[key] == init[j].value;
          assert LastNamed(ps, key, j);
        }
        if exists j :: 0 <= j < |ps| && ps[j].key == key {
          var j :| 0 <= j < |ps| && ps[j].key == key;
          assert init[j].key == key;
        }
      }
    }
  }

  /** A parameter written `key="value"` parses back to its key and value. */
  lemma QuotedParam(key: string, value: string)
    requires PlainKey(key) && Unquoted(value)
    ensures ParamOf(Quoted(key, value)) == Param(key, value)
  {
    var quoted := "\"" + value + "\"";
    assert key + "=\"" + value + "\"" == key + "=" + quoted;
    PartitionOf(key, quoted);
    TrimStartStops(key, Whitespace);
    TrimEndStops(key, Whitespace);
    TrimStartStops(quoted, Whitespace);
    TrimEndStops(quoted, Whitespace);
    StripQuotesOfQuoted(value);
  }

  /** Characters of the standard base64 alphabet, padding included. */
  predicate IsB64Char(ch: char) {
    ('A' <= ch <= 'Z') || ('a' <= ch <= 'z') || ('0' <= ch <= '9') || ch == '+' || ch == '/' || ch == '='
  }

  predicate IsB64Text(s: string) {
    forall i :: 0 <= i < |s| ==> IsB64Char(s[i])
  }

  /** No base64 text holds a comma or has a double quote at either end. */
  lemma B64Unquoted(s: string)
    requires IsB64Text(s)
    ensures ',' !in s && Unquoted(s)
  {
    forall i | 0 <= i < |s| ensures s[i] != ',' && s[i] != '"' {
      assert IsB64Char(s[i]);
    }
  }

  lemma FixedParamsPlain()
    ensures ',' !in ALGORITHM_PARAM && ',' !in HEADERS_PARAM
  {
  }

  /** The Signature header splits into the key id's pieces and the three
      fixed-order parameters after it. */
  lemma SplitHeader(keyId: string, signature: string)
    requires ',' !in signature
    ensures Split(SignatureHeader(keyId, signature), ',')
         == Split(KeyIdParam(keyId), ',') + [ALGORITHM_PARAM, HEADERS_PARAM, SignatureParam(signature)]
  {
    var kp, sp := KeyIdParam(keyId), SignatureParam(signature);
    var tail2 := HEADERS_PARAM + [','] + sp;
    var tail1 := ALGORITHM_PARAM + [','] + tail2;
    assert SignatureHeader(keyId, signature) == kp + [','] + tail1;
    FixedParamsPlain();
    assert ',' !in sp;
    SplitAppend(HEADERS_PARAM, ',', sp);
    var s2 := Split(tail2, ',');
    assert s2 == [HEADERS_PARAM, sp];
    SplitAppend(ALGORITHM_PARAM, ',', tail2);
    var s1 := Split(tail1, ',');
    assert s1 == [ALGORITHM_PARAM] + s2;
    SplitAppend(kp, ',', tail1);
    assert [ALGORITHM_PARAM] + s2 == [ALGORITHM_PARAM, HEADERS_PARAM, sp];
    assert Split(kp + [','] + tail1, ',') == Split(kp, ',') + [ALGORITHM_PARAM, HEADERS_PARAM, sp];
  }

  /** The last parameter given a name decides its value. */
  lemma ParamMapLast(ps: seq<Param>, p: Param)
    ensures ParamMap(ps + [p]) == ParamMap(ps)[p.key := p.value]
  {
    assert (ps + [p])[..|ps|] == ps;
  }

  lemma {:induction false} ParamsOfAppend(xs: seq<string>, ys: seq<string>)
    ensures ParamsOf(xs + ys) == ParamsOf(xs) + ParamsOf(ys)
  {
    var zs := xs + ys;
    var l, a, b := ParamsOf(zs), ParamsOf(xs), ParamsOf(ys);
    var r := a + b;
    assert |l| == |r|;
    forall i | 0 <= i < |zs| ensures l[i] == r[i] {
      if i < |xs| {
        assert zs[i] == xs[i] && r[i] == a[i];
      } else {
        assert zs[i] == ys[i - |xs|] && r[i] == b[i - |xs|];
      }
    }
  }

  /** The parameter text a key and value make parses back to them. */
  predicate PlainKey(key: string) {
    key != [] && '=' !in key && !IsSpace(key[0]) && !IsSpace(key[|key| - 1])
  }

  predicate Unquoted(value: string) {
    value == [] || (value[0] != '"' && value[|value| - 1] != '"')
  }

  lemma ParamsOfOne(x: string)
    ensures ParamsOf([x]) == [ParamOf(x)]
  {
    assert [x][..0] == [];
  }

  lemma ParamsOfThree(x: string, y: string, z: string)
    ensures ParamsOf([x, y, z]) == [ParamOf(x), ParamOf(y), ParamOf(z)]
  {
    var ps := ParamsOf([x, y, z]);
    assert |ps| == 3 && ps[0] == ParamOf(x) && ps[1] == ParamOf(y) && ps[2] == ParamOf(z);
  }

  /** Three `key="value"` parameters at the end of the header parse to
      their keys and values. */
  lemma TailParsed(front: seq<string>, k1: string, v1: string, k2: string, v2: string,
                   k3: string, v3: string)
    requires PlainKey(k1) && PlainKey(k2) && PlainKey(k3)
    requires Unquoted(v1) && Unquoted(v2) && Unquoted(v3)
    ensures ParamsOf(front + [Quoted(k1, v1), Quoted(k2, v2), Quoted(k3, v3)])
         == ParamsOf(front) + [Param(k1, v1), Param(k2, v2), Param(k3, v3)]
  {
    ParamsOfAppend(front, [Quoted(k1, v1), Quoted(k2, v2), Quoted(k3, v3)]);
    ParamsOfThree(Quoted(k1, v1), Quoted(k2, v2), Quoted(k3, v3));
    QuotedParam(k1, v1);
    QuotedParam(k2, v2);
    QuotedParam(k3, v3);
  }

  /** The three fixed-order parameters after the key id parse to their
      keys and values. */
  lemma FixedTail(front: seq<string>, signature: string)
    requires Unquoted(signature)
    ensures ParamsOf(front + [ALGORITHM_PARAM, HEADERS_PARAM, SignatureParam(signature)])
         == ParamsOf(front) + [Param("algorithm", "rsa-sha256"), Param("headers", COVERED),
                               Param("signature", signature)]
  {
    assert PlainKey("algorithm") && PlainKey("headers") && PlainKey("signature");
    assert Unquoted("rsa-sha256") && Unquoted(COVERED);
    TailParsed(front, "algorithm", "rsa-sha256", "headers", COVERED, "signature", signature);
  }

  /** The last three parameters, with distinct keys, decide those keys. */
  lemma EndsWithThree(ps: seq<Param>, a: Param, h: Param, g: Param)
    requires a.key != h.key && a.key != g.key && h.key != g.key
    ensures var params := ParamMap(ps + [a, h, g]);
      && a.key in params && params[a.key] == a.value
      && h.key in params && params[h.key] == h.value
      && g.key in params && params[g.key] == g.value
  {
    assert ps + [a, h, g] == ps + [a] + [h] + [g];
    ParamMapLast(ps, a);
    ParamMapLast(ps + [a], h);
    ParamMapLast(ps + [a] + [h], g);
  }

  /** Parsing the header `sign_request` emits gives back its covered header
      list and its signature whatever the key id holds, and the key id too
      when it has no comma and no edge quote. */
  lemma HeaderParams(keyId: string, signature: string)
    requires IsB64Text(signature)
    ensures var params := SignatureParams(SignatureHeader(keyId, signature));
      && "headers" in params && params["headers"] == COVERED
      && "signature" in params && params["signature"] == signature
      && "algorithm" in params && params["algorithm"] == "rsa-sha256"
      && (',' !in keyId && Unquoted(keyId) ==> "keyId" in params && params["keyId"] == keyId)
  {
    B64Unquoted(signature);
    SplitHeader(keyId, signature);
    var keyParts := Split(KeyIdParam(keyId), ',');
    FixedTail(keyParts, signature);
    EndsWithThree(ParamsOf(keyParts), Param("algorithm", "rsa-sha256"), Param("headers", COVERED),
                  Param("signature", signature));
    if ',' !in keyId && Unquoted(keyId) {
      KeyIdAlone(keyId, signature);
    }
  }

  lemma KeyIdPlain(keyId: string)
    requires ',' !in keyId
    ensures ',' !in KeyIdParam(keyId)
  {
    var kp := KeyIdParam(keyId);
    forall i | 0 <= i < |kp| ensures kp[i] != ',' {
      if 7 <= i < 7 + |keyId| {
        assert kp[i] == keyId[i - 7];
      }
    }
  }

  /** A key id without commas is a parameter of its own, the first one. */
  lemma KeyIdAlone(keyId: string, signature: string)
    requires ',' !in keyId && Unquoted(keyId)
    requires ',' !in signature && Unquoted(signature)
    ensures var params := SignatureParams(SignatureHeader(keyId, signature));
      "keyId" in params && params["keyId"] == keyId
  {
    var kp := KeyIdParam(keyId);
    KeyIdPlain(keyId);
    QuotedParam("keyId", keyId);
    ParamsOfOne(kp);
    SplitHeader(keyId, signature);
    assert Split(kp, ',') == [kp];
    FixedTail([kp], signature);
    FirstOfFour(Param("keyId", keyId), Param("algorithm", "rsa-sha256"), Param("headers", COVERED),
                Param("signature", signature));
  }

  /** A first parameter whose key never comes again keeps its value. */
  lemma FirstOfFour(p: Param, a: Param, h: Param, g: Param)
    requires p.key != a.key && p.key != h.key && p.key != g.key
    ensures p.key in ParamMap([p] + [a, h, g]) && ParamMap([p] + [a, h, g])[p.key] == p.value
  {
    assert [p][..0] == [];
    assert ParamMap([p]) == map[p.key := p.value];
    assert [p] + [a, h, g] == [p] + [a] + [h] + [g];
    ParamMapLast([p], a);
    ParamMapLast([p] + [a], h);
    ParamMapLast([p] + [a] + [h], g);
  }

  /** The covered-header list `sign_request` announces is SIGNED_HEADERS. */
  lemma AnnouncedHeaders()
    ensures Words(COVERED) == SIGNED_HEADERS
  {
    assert Join(SIGNED_HEADERS, " ") == COVERED by {
      JoinCons(SIGNED_HEADERS, " ");
      JoinCons(SIGNED_HEADERS[1..], " ");
      JoinCons(SIGNED_HEADERS[2..], " ");
    }
    forall i | 0 <= i < |SIGNED_HEADERS| ensures IsWord(SIGNED_HEADERS[i]) {
    }
    WordsOfJoined(SIGNED_HEADERS);
  }

  // ---------------------------------------------------------------------------
  // Verification

  /** `verify_signature`'s verdict: a non-empty Signature header whose
      `signature` parameter decodes and checks against the string built from
      its `headers` parameter, and, when a Digest header is sent, a digest
      that matches the body. Every exception the source catches is a false. */
  function Accepts(c: Crypto, headers: Headers, verb: string, path: string, body: seq<byte>,
                   pem: string): (ok: bool)
    ensures ok ==> "Signature" in headers && headers["Signature"] != "" && c.available
    ensures ok && "Digest" in headers ==> headers["Digest"] == DigestOf(c, body)
    ensures ok ==>
      var params := SignatureParams(headers["Signature"]);
      var raw := c.b64decode(if "signature" in params then params["signature"] else "");
      && raw.Some?
      && c.rsaVerify(pem, raw.value,
           SignedString(headers, verb, path, Words(if "headers" in params then params["headers"] else "")))
  {
    && "Signature" in headers && headers["Signature"] != "" && c.available
    && SignatureVerified(c, headers, verb, path, pem)
    && ("Digest" in headers ==> headers["Digest"] == DigestOf(c, body))
  }

  /** The `signature` parameter of the Signature header decodes and checks
      under `pem` against the string built from the `headers` parameter. */
  predicate SignatureVerified(c: Crypto, headers: Headers, verb: string, path: string, pem: string)
    requires "Signature" in headers
  {
    var params := SignatureParams(headers["Signature"]);
    var names := Words(if "headers" in params then params["headers"] else "");
    var raw := c.b64decode(if "signature" in params then params["signature"] else "");
    raw.Some? && c.rsaVerify(pem, raw.value, SignedString(headers, verb, path, names))
  }

  /** `verify_signature`. */
  method VerifySignature(c: Crypto, headers: Headers, verb: string, path: string, body: seq<byte>,
                         pem: string) returns (ok: bool)
    ensures ok == Accepts(c, headers, verb, path, body, pem)
  {
    var sigHeader := if "Signature" in headers then headers["Signature"] else "";
    if sigHeader == "" {
      return false;
    }
    var params := ParseParams(sigHeader);
    var names := Words(if "headers" in params then params["headers"] else "");
    var signed := BuildSignedString(headers, verb, path, names);
    if !c.available {
      return false;
    }
    var raw := c.b64decode(if "signature" in params then params["signature"] else "");
    if raw.None? {
      return false;
    }
    if !c.rsaVerify(pem, raw.value, signed) {
      return false;
    }
    ghost var verified := SignatureVerified(c, headers, verb, path, pem);
    assert verified;
    if "Digest" in headers {
      var expected := DigestOf(c, body);
      if headers["Digest"] != expected {
        return false;
      }
    }
    return true;
  }

  // ---------------------------------------------------------------------------
  // Sign, then verify

  /** The public key checks every signature the private key makes. */
  ghost predicate KeyPair(c: Crypto, privatePem: string, publicPem: string) {
    forall msg, sig :: c.rsaSign(privatePem, msg) == Some(sig) ==> c.rsaVerify(publicPem, sig, msg)
  }

  /** base64 decodes what it encodes, and encodes into its own alphabet. */
  ghost predicate Base64Sound(c: Crypto) {
    forall bytes :: c.b64decode(c.b64encode(bytes)) == Some(bytes) && IsB64Text(c.b64encode(bytes))
  }

  /** What the receiving side sees of a signed request: the headers
      sign_request produced (under their own or their lower-case names) and
      the Host header. */
  predicate Carries(received: Headers, sent: Headers, host: string)
    requires "Date" in sent && "Digest" in sent && "Signature" in sent
  {
    && HeaderValue(received, "host") == host
    && HeaderValue(received, "date") == sent["Date"]
    && HeaderValue(received, "digest") == sent["Digest"]
    && "Signature" in received && received["Signature"] == sent["Signature"]
    && ("Digest" in received ==> received["Digest"] == sent["Digest"])
  }

  lemma JoinFour(a: string, b: string, c: string, d: string, sep: string)
    ensures Join([a, b, c, d], sep) == a + sep + b + sep + c + sep + d
  {
    var parts := [a, b, c, d];
    JoinCons(parts, sep);
    assert parts[1..] == [b, c, d];
    JoinCons([b, c, d], sep);
    assert [b, c, d][1..] == [c, d];
    JoinCons([c, d], sep);
    assert [c, d][1..] == [d];
  }

  /** The lines SIGNED_HEADERS contributes on the receiving side. */
  lemma CoveredLines(received: Headers, verb: string, path: string)
    ensures SignedLines(received, verb, path, SIGNED_HEADERS)
         == ["(request-target): " + Lower(verb) + " " + path,
             "host: " + HeaderValue(received, "host"),
             "date: " + HeaderValue(received, "date"),
             "digest: " + HeaderValue(received, "digest")]
  {
    var lines := SignedLines(received, verb, path, SIGNED_HEADERS);
    assert |lines| == 4;
    assert "(request-target)" == SIGNED_HEADERS[0] && lines[0] == SignedLine(received, verb, path, "(request-target)");
    assert "host" == SIGNED_HEADERS[1] && lines[1] == SignedLine(received, verb, path, "host");
    assert "date" == SIGNED_HEADERS[2] && lines[2] == SignedLine(received, verb, path, "date");
    assert "digest" == SIGNED_HEADERS[3] && lines[3] == SignedLine(received, verb, path, "digest");
    assert "host" + ": " == "host: " && "date" + ": " == "date: " && "digest" + ": " == "digest: ";
    assert lines == [lines[0], lines[1], lines[2], lines[3]];
  }

  /** The signing string is the signed string built from SIGNED_HEADERS on
      the receiving side. */
  lemma CoveredString(received: Headers, verb: string, path: string, host: string,
                      date: string, digest: string)
    requires HeaderValue(received, "host") == host
    requires HeaderValue(received, "date") == date
    requires HeaderValue(received, "digest") == digest
    ensures SignedString(received, verb, path, SIGNED_HEADERS) == SigningString(verb, path, host, date, digest)
  {
    CoveredLines(received, verb, path);
    JoinFour("(request-target): " + Lower(verb) + " " + path, "host: " + host,
             "date: " + date, "digest: " + digest, "\n");
  }

  /** The headers sign_request returns, sent together with `Host`, are
      carried to the receiver. */
  lemma SentWithHost(sent: Headers, host: string)
    requires sent.Keys == {"Date", "Digest", "Signature"}
    ensures Carries(sent["Host" := host], sent, host)
  {
    var received := sent["Host" := host];
    TitleOfLowerWord("host");
    assert Title("host") == "Host";
    TitleOfLowerWord("date");
    assert Title("date") == "Date";
    TitleOfLowerWord("digest");
    assert Title("digest") == "Digest";
    assert "host" !in received && "date" !in received && "digest" !in received;
  }

  /** The round trip: a request signed with a private key is accepted by
      the verifier holding the matching public key, when the receiver sees
      the headers that were sent. */
  lemma SignThenVerify(c: Crypto, verb: string, path: string, host: string, body: seq<byte>,
                       privatePem: string, publicPem: string, keyId: string, date: string,
                       received: Headers)
    requires c.available && KeyPair(c, privatePem, publicPem) && Base64Sound(c)
    requires SignRequest(c, verb, path, host, body, privatePem, keyId, date).Some?
    requires Carries(received, SignRequest(c, verb, path, host, body, privatePem, keyId, date).value, host)
    ensures Accepts(c, received, verb, path, body, publicPem)
  {
    var sent := SignRequest(c, verb, path, host, body, privatePem, keyId, date).value;
    var signing := SigningString(verb, path, host, date, DigestOf(c, body));
    var sigBytes := c.rsaSign(privatePem, signing).value;
    var sig := c.b64encode(sigBytes);
    assert IsB64Text(sig) && c.b64decode(sig) == Some(sigBytes);
    HeaderParams(keyId, sig);
    AnnouncedHeaders();
    CoveredString(received, verb, path, host, date, DigestOf(c, body));
    var params := SignatureParams(received["Signature"]);
    assert params["signature"] == sig;
    assert Words(params["headers"]) == SIGNED_HEADERS;
    assert c.rsaVerify(publicPem, sigBytes, signing);
  }
}
