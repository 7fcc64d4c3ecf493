/** Texts on the wire: change notifications and version-one request envelopes. */
module Wire {
  import opened Basics
  import opened JsonText
  import opened Uuids

  // ---- Notification payloads ----

  /** What the database trigger sends: the run, and its owner when the row carries one. */
  function NotificationText(run: Uuid, owner: Option<Uuid>): string {
    UuidText(run) + (if owner.Some? then ":" + UuidText(owner.value) else "")
  }

  function IndexOf(s: string, c: char): (i: nat)
    ensures i <= |s| && c !in s[..i] && (i < |s| ==> s[i] == c)
  {
    if s == "" then 0
    else if s[0] == c then 0
    else
      var i := IndexOf(s[1..], c) + 1;
      assert s[..i] == [s[0]] + s[1..][..i - 1];
      i
  }

  /** `parse_payload`; None stands for ValueError. */
  function ParsePayload(payload: string): Option<(Uuid, Option<Uuid>)> {
    var i := IndexOf(payload, ':');
    var run := ParseUuid(payload[..i]);
    if i == |payload| then
      if run.Some? then Some((run.value, None)) else None
    else
      var owner := payload[i + 1..];
      if owner == "" || run.None? || ParseUuid(owner).None? then None
      else Some((run.value, ParseUuid(owner)))
  }

  lemma FirstIndex(a: string, c: char, rest: string)
    requires c !in a
    ensures IndexOf(a + [c] + rest, c) == |a| && IndexOf(a, c) == |a|
  {
    var s := a + [c] + rest;
    var i := IndexOf(s, c);
    assert s[|a|] == c;
    assert forall k :: 0 <= k < |a| ==> s[k] == a[k] && a[k] in a;
    assert forall k :: 0 <= k < |a| ==> a[k] != c;
  }

  lemma UuidTextHasNoColon(u: Uuid)
    ensures ':' !in UuidText(u)
  {
    UuidTextCharacters(u);
    assert forall c :: c in UuidText(u) ==> IsHex(c) || c == '-';
  }

  /** The listener reads exactly the run and owner the trigger wrote. */
  lemma PayloadRoundTrip(run: Uuid, owner: Option<Uuid>)
    ensures ParsePayload(NotificationText(run, owner)) == Some((run, owner))
  {
    var text := NotificationText(run, owner);
    var r := UuidText(run);
    UuidTextHasNoColon(run);
    UuidRoundTrip(run);
    match owner {
      case None =>
        assert text == r;
        FirstIndex(r, ':', "");
      case Some(o) =>
        assert text == r + [':'] + UuidText(o);
        FirstIndex(r, ':', UuidText(o));
        assert text[..|r|] == r && text[|r| + 1..] == UuidText(o);
        UuidRoundTrip(o);
        UuidTextCharacters(o);
    }
  }

  // ---- Request envelopes ----

  const REQUESTED := "run.requested"

  datatype Envelope = Envelope(id: Uuid, run: Uuid, eventType: string, createdAt: string)

  datatype Decoded = RunNamed(run: Uuid) | Rejected(code: string)

  function EnvelopeKey(e: Envelope): string { UuidText(e.run) }

  function EnvelopeValue(e: Envelope): Json {
    JObject(map["schema_version" := JInt(1),
                "event_id" := JString(UuidText(e.id)),
                "run_id" := JString(UuidText(e.run)),
                "event_type" := JString(e.eventType),
                "created_at" := JString(e.createdAt)])
  }

  function UuidField(fields: map<string, Json>, name: string): Option<Uuid> {
    if name in fields && fields[name].JString? then ParseUuid(fields[name].text) else None
  }

  /**
   * `decode_request`. A value of None is one that is missing or is not JSON; `aware` says of a
   * text whether it is an ISO time with an offset, which the date library decides.
   */
  function Decode(key: Option<string>, value: Option<Json>, aware: string -> bool): Decoded {
    if value.None? || !value.value.JObject? then Rejected("invalid_envelope")
    else
      var f := value.value.fields;
      if !("schema_version" in f && f["schema_version"] == JInt(1)) then Rejected("unsupported_version")
      else if !("event_type" in f && f["event_type"] == JString(REQUESTED)) then Rejected("unsupported_event")
      else
        var run := UuidField(f, "run_id");
        if UuidField(f, "event_id").None? || run.None?
           || !("created_at" in f && f["created_at"].JString? && aware(f["created_at"].text))
        then Rejected("invalid_envelope")
        else if key != Some(UuidText(run.value)) then Rejected("key_mismatch")
        else RunNamed(run.value)
  }

  /** The worker reads from a published record the run the publisher named, exactly for request events. */
  lemma EnvelopeRoundTrip(e: Envelope, aware: string -> bool)
    requires aware(e.createdAt)
    ensures Decode(Some(EnvelopeKey(e)), Some(EnvelopeValue(e)), aware)
         == if e.eventType == REQUESTED then RunNamed(e.run) else Rejected("unsupported_event")
  {
    UuidRoundTrip(e.id);
    UuidRoundTrip(e.run);
  }

  /** The fields a version-one request must have, for some identifier, run and time. */
  predicate IsRequest(f: map<string, Json>, run: Uuid, aware: string -> bool) {
    && "schema_version" in f && f["schema_version"] == JInt(1)
    && "event_type" in f && f["event_type"] == JString(REQUESTED)
    && UuidField(f, "event_id").Some? && UuidField(f, "run_id") == Some(run)
    && "created_at" in f && f["created_at"].JString? && aware(f["created_at"].text)
  }

  /** A record is a request for a run exactly if its value is a version-one request for it and its key is the run's text. */
  lemma DecodesExactly(key: Option<string>, value: Option<Json>, aware: string -> bool, run: Uuid)
    ensures Decode(key, value, aware) == RunNamed(run) <==>
            value.Some? && value.value.JObject? && IsRequest(value.value.fields, run, aware) && key == Some(UuidText(run))
  {
  }

  /** A request under another key is rejected for its key, and other events for their type, whatever else they hold. */
  lemma RejectsWithCode(key: Option<string>, f: map<string, Json>, aware: string -> bool, run: Uuid)
    ensures IsRequest(f, run, aware) && key != Some(UuidText(run)) ==> Decode(key, Some(JObject(f)), aware) == Rejected("key_mismatch")
    ensures "schema_version" in f && f["schema_version"] == JInt(1) && !("event_type" in f && f["event_type"] == JString(REQUESTED))
            ==> Decode(key, Some(JObject(f)), aware) == Rejected("unsupported_event")
    ensures !("schema_version" in f && f["schema_version"] == JInt(1)) ==> Decode(key, Some(JObject(f)), aware) == Rejected("unsupported_version")
    ensures Decode(key, None, aware) == Rejected("invalid_envelope")
  {
  }

  /** Records accepted under the same key name the same run: the key alone fixes what a record can ask for. */
  lemma KeyFixesRun(key: Option<string>, v: Option<Json>, w: Option<Json>, aware: string -> bool)
    requires Decode(key, v, aware).RunNamed? && Decode(key, w, aware).RunNamed?
    ensures Decode(key, v, aware) == Decode(key, w, aware)
    ensures key.Some? && ParseUuid(key.value) == Some(Decode(key, v, aware).run)
  {
    var r, q := Decode(key, v, aware).run, Decode(key, w, aware).run;
    assert key == Some(UuidText(r)) && key == Some(UuidText(q));
    UuidRoundTrip(r);
    UuidRoundTrip(q);
  }
}
