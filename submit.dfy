/** The submit handler from the moment the backend's JSON body has been
    received: take `optimized_resume` (the text "{}" when it is absent),
    decode it when it is text, check the required keys in order, and render
    the record both ways. Stopping the page becomes an error outcome. */
module Submit {
  import opened JsonValue
  import opened Resume
  import Markdown
  import Docx

  /** How one submission ends. */
  datatype Outcome =
    | ParseFailed
    | MissingKey(key: string)
    | Rendered(markdown: string, paragraphs: seq<Docx.Paragraph>)

  /** A JSON decoder for the payload text: the decoded object, or None when
      the text is not valid JSON. */
  type Decoder = string -> Option<map<string, Json>>

  const DefaultPayload: string := "{}"

  /** The `optimized_resume` field of the response body, or the text "{}"
      when the body has none. */
  function Payload(response: map<string, Json>): Json {
    if "optimized_resume" in response then response["optimized_resume"] else JString(DefaultPayload)
  }

  /** The object to validate: the payload itself when it already is one,
      what the decoder makes of it when it is text. */
  function Decoded(payload: Json, decode: Decoder): Option<map<string, Json>>
    requires payload.JString? || payload.JObject?
  {
    if payload.JString? then decode(payload.s) else Some(payload.fields)
  }

  /** The responses this model covers: the payload is text or an object, and
      a decoded object that passes the key check has the shape the renderers
      index into. */
  predicate Admissible(response: map<string, Json>, decode: Decoder) {
    var p := Payload(response);
    && (p.JString? || p.JObject?)
    && (Decoded(p, decode).Some? && HasAllKeys(Decoded(p, decode).value) ==> WellShaped(Decoded(p, decode).value))
  }

  /** The first of `keys` that `m` lacks, if any. */
  function FirstMissing(keys: seq<string>, m: map<string, Json>): (r: Option<string>)
    ensures r.None? <==> forall i :: 0 <= i < |keys| ==> keys[i] in m
    ensures r.Some? ==>
      exists i :: 0 <= i < |keys| && keys[i] == r.value && keys[i] !in m && forall j :: 0 <= j < i ==> keys[j] in m
  {
    if keys == [] then None
    else if keys[0] !in m then Some(keys[0])
    else
      var r := FirstMissing(keys[1..], m);
      assert r.Some? ==> exists i :: 0 < i < |keys| && keys[i] == r.value && keys[i] !in m && forall j :: 0 <= j < i ==> keys[j] in m by {
        if r.Some? {
          var i :| 0 <= i < |keys| - 1 && keys[1..][i] == r.value && keys[1..][i] !in m && forall j :: 0 <= j < i ==> keys[1..][j] in m;
          assert forall j :: 0 < j < i + 1 ==> keys[j] == keys[1..][j - 1];
        }
      }
      r
  }

  /** Keys already found present do not change which key is reported. */
  lemma {:induction false} FirstMissingAfter(keys: seq<string>, m: map<string, Json>, i: nat)
    requires i <= |keys|
    requires forall j :: 0 <= j < i ==> keys[j] in m
    ensures FirstMissing(keys, m) == FirstMissing(keys[i..], m)
  {
    if i > 0 {
      assert keys[0] in m;
      assert keys[1..][i - 1..] == keys[i..];
      FirstMissingAfter(keys[1..], m, i - 1);
    }
  }

  /** The loop over the required keys with its early exit. */
  method CheckRequiredKeys(m: map<string, Json>) returns (missing: Option<string>)
    ensures missing == FirstMissing(RequiredKeys, m)
  {
    for i := 0 to |RequiredKeys|
      invariant forall j :: 0 <= j < i ==> RequiredKeys[j] in m
    {
      if RequiredKeys[i] !in m {
        FirstMissingAfter(RequiredKeys, m, i);
        return Some(RequiredKeys[i]);
      }
    }
    FirstMissingAfter(RequiredKeys, m, |RequiredKeys|);
    return None;
  }

  /** The key reported is the first absent one in the order name,
      contact_info, experience, education, skills: whichever keys come after
      it, present or not, do not matter. */
  lemma ReportsFirstAbsent(m: map<string, Json>, i: nat)
    requires i < |RequiredKeys| && RequiredKeys[i] !in m
    requires forall j :: 0 <= j < i ==> RequiredKeys[j] in m
    ensures FirstMissing(RequiredKeys, m) == Some(RequiredKeys[i])
  {
    var r := FirstMissing(RequiredKeys, m);
    var k :| 0 <= k < |RequiredKeys| && RequiredKeys[k] == r.value && RequiredKeys[k] !in m
             && forall j :: 0 <= j < k ==> RequiredKeys[j] in m;
    assert k == i;
  }

  /** An object lacking exactly one required key is reported as lacking that
      key and no other. */
  lemma ReportsOnlyMissingKey(m: map<string, Json>, i: nat)
    requires i < |RequiredKeys| && RequiredKeys[i] !in m
    requires forall j :: 0 <= j < |RequiredKeys| && j != i ==> RequiredKeys[j] in m
    ensures FirstMissing(RequiredKeys, m) == Some(RequiredKeys[i])
  {
    ReportsFirstAbsent(m, i);
  }

  /** The handler's outcome for a response body. */
  function Handle(response: map<string, Json>, decode: Decoder): Outcome
    requires Admissible(response, decode)
  {
    match Decoded(Payload(response), decode)
    case None => ParseFailed
    case Some(m) =>
      match FirstMissing(RequiredKeys, m)
      case Some(key) => MissingKey(key)
      case None => Rendered(Markdown.Render(ToRecord(m)), Docx.Paragraphs(ToRecord(m)))
  }

  /** The submit handler after a successful request: default, decode,
      validate, and only then render. */
  method HandleResponse(response: map<string, Json>, decode: Decoder) returns (outcome: Outcome)
    requires Admissible(response, decode)
    ensures outcome == Handle(response, decode)
  {
    var payload := Payload(response);
    var fields: map<string, Json>;
    if payload.JString? {
      var decoded := decode(payload.s);
      if decoded.None? {
        return ParseFailed;
      }
      fields := decoded.value;
    } else {
      fields := payload.fields;
    }
    var missing := CheckRequiredKeys(fields);
    if missing.Some? {
      return MissingKey(missing.value);
    }
    var record := ToRecord(fields);
    var text := Markdown.FormatResume(record);
    var paragraphs := Docx.GenerateDocx(record);
    return Rendered(text, paragraphs);
  }

  /** Which of the three ways a submission ends: a decode failure stops it
      before validation, a missing key stops it before rendering, and it is
      rendered exactly when the decoded object has all required keys. */
  lemma Outcomes(response: map<string, Json>, decode: Decoder)
    requires Admissible(response, decode)
    ensures var d := Decoded(Payload(response), decode);
      && (Handle(response, decode).ParseFailed? <==> d.None?)
      && (Handle(response, decode).MissingKey? <==> d.Some? && !HasAllKeys(d.value))
      && (Handle(response, decode).Rendered? <==> d.Some? && HasAllKeys(d.value))
    ensures Handle(response, decode).MissingKey? ==>
      exists i :: 0 <= i < |RequiredKeys| && RequiredKeys[i] == Handle(response, decode).key
        && RequiredKeys[i] !in Decoded(Payload(response), decode).value
        && forall j :: 0 <= j < i ==> RequiredKeys[j] in Decoded(Payload(response), decode).value
  {
  }

  /** The key check looks only at which keys are present: an object whose
      present fields have the wrong shape still stops at its first absent
      key, before any rendering. */
  lemma IllShapedStopsAtMissingKey(response: map<string, Json>, decode: Decoder)
    requires response == map["optimized_resume" := JObject(map["name" := JNumber(5)])]
    ensures Admissible(response, decode)
    ensures Handle(response, decode) == MissingKey("contact_info")
  {
    ReportsFirstAbsent(map["name" := JNumber(5)], 1);
  }

  /** A textual payload the decoder rejects ends the submission there. */
  lemma UndecodableStops(response: map<string, Json>, decode: Decoder)
    requires "optimized_resume" in response && response["optimized_resume"].JString?
    requires decode(response["optimized_resume"].s).None?
    ensures Admissible(response, decode) && Handle(response, decode) == ParseFailed
  {
  }

  /** Without an `optimized_resume` field the default "{}" decodes to the
      empty object, so the submission stops naming `name`. */
  lemma AbsentPayloadMissesName(response: map<string, Json>, decode: Decoder)
    requires "optimized_resume" !in response
    requires decode(DefaultPayload) == Some(map[])
    ensures Admissible(response, decode)
    ensures Handle(response, decode) == MissingKey("name")
  {
    ReportsFirstAbsent(map[], 0);
  }

  /** A backend that sends a record, as an object or as text decoding to
      one, gets exactly that record rendered both ways. */
  lemma RecordIsRendered(response: map<string, Json>, decode: Decoder, r: ResumeRecord)
    requires "optimized_resume" in response
    requires var p := response["optimized_resume"];
      p == JObject(FromRecord(r)) || (p.JString? && decode(p.s) == Some(FromRecord(r)))
    ensures Admissible(response, decode)
    ensures Handle(response, decode) == Rendered(Markdown.Render(r), Docx.Paragraphs(r))
  {
    RecordRoundTrip(r);
  }
}
