/** Jobs and their queue entries. An entry is the JSON value tree of a job; object fields keep
    their order, because Redis compares entries as text. */
module Jobs {
  import opened Options

  datatype Json =
    | JNull
    | JBool(b: bool)
    | JInt(n: int)
    | JFloat(repr: string)
    | JString(s: string)
    | JArray(items: seq<Json>)
    | JObject(fields: seq<(string, Json)>)

  /** Python values as they occur in payloads: a tuple is written as an array, and any other
      object is written as its `str`, so decoding does not give back the original value. */
  datatype Value =
    | VNone
    | VBool(b: bool)
    | VInt(n: int)
    | VFloat(repr: string)
    | VStr(s: string)
    | VList(items: seq<Value>)
    | VTuple(items: seq<Value>)
    | VDict(fields: seq<(string, Value)>)
    | VOther(text: string)

  datatype Job = Job(id: string, kind: string, payload: seq<(string, Value)>, attempt: int, createdAt: string)

  function Dump(v: Value): Json {
    match v
    case VNone => JNull
    case VBool(b) => JBool(b)
    case VInt(n) => JInt(n)
    case VFloat(repr) => JFloat(repr)
    case VStr(s) => JString(s)
    case VList(items) => JArray(seq(|items|, i requires 0 <= i < |items| => Dump(items[i])))
    case VTuple(items) => JArray(seq(|items|, i requires 0 <= i < |items| => Dump(items[i])))
    case VDict(fields) => JObject(seq(|fields|, i requires 0 <= i < |fields| => (fields[i].0, Dump(fields[i].1))))
    case VOther(text) => JString(text)
  }

  function Load(j: Json): Value {
    match j
    case JNull => VNone
    case JBool(b) => VBool(b)
    case JInt(n) => VInt(n)
    case JFloat(repr) => VFloat(repr)
    case JString(s) => VStr(s)
    case JArray(items) => VList(seq(|items|, i requires 0 <= i < |items| => Load(items[i])))
    case JObject(fields) => VDict(seq(|fields|, i requires 0 <= i < |fields| => (fields[i].0, Load(fields[i].1))))
  }

  /** Value under a key; a later field overrides an earlier one. */
  function Get<T>(fields: seq<(string, T)>, key: string): Option<T> {
    if fields == [] then None
    else
      var last := fields[|fields| - 1];
      if last.0 == key then Some(last.1) else Get(fields[..|fields| - 1], key)
  }

  function Entry(id: string, kind: string, payload: Json, attempt: int, createdAt: string): Json {
    JObject([("id", JString(id)), ("type", JString(kind)), ("payload", payload),
             ("attempt", JInt(attempt)), ("created_at", JString(createdAt))])
  }

  /** `Job.to_json`. */
  function ToEntry(job: Job): Json {
    Entry(job.id, job.kind, Dump(VDict(job.payload)), job.attempt, job.createdAt)
  }

  /** `Job.from_json`; `None` where it raises. */
  function FromEntry(j: Json): Option<Job> {
    if !j.JObject? then None
    else
      var id, kind, payload := Get(j.fields, "id"), Get(j.fields, "type"), Get(j.fields, "payload");
      var attempt, created := Get(j.fields, "attempt"), Get(j.fields, "created_at");
      if payload.None? || !payload.value.JObject? then None
      else if id.None? || !id.value.JString? || kind.None? || !kind.value.JString? then None
      else if attempt.None? || !attempt.value.JInt? || created.None? || !created.value.JString? then None
      else Some(Job(id.value.s, kind.value.s, Load(payload.value).fields, attempt.value.n, created.value.s))
  }

  function NextAttempt(job: Job): Job {
    job.(attempt := job.attempt + 1)
  }

  // ----- Encoding is a fixed point -----

  lemma {:induction false} DumpLoad(j: Json)
    ensures Dump(Load(j)) == j
  {
    match j
    case JArray(items) =>
      forall i | 0 <= i < |items| ensures Dump(Load(items[i])) == items[i] {
        DumpLoad(items[i]);
      }
      assert Dump(Load(j)).items == items;
    case JObject(fields) =>
      forall i | 0 <= i < |fields| ensures (fields[i].0, Dump(Load(fields[i].1))) == fields[i] {
        DumpLoad(fields[i].1);
      }
      assert Dump(Load(j)).fields == fields;
    case _ =>
  }

  /** Values that JSON can hold: no tuples and no other objects. */
  ghost predicate Plain(v: Value) {
    match v
    case VTuple(_) => false
    case VOther(_) => false
    case VList(items) => forall i | 0 <= i < |items| :: Plain(items[i])
    case VDict(fields) => forall i | 0 <= i < |fields| :: Plain(fields[i].1)
    case _ => true
  }

  /** A plain value comes back as it was; a tuple comes back as the list of its items, and any other
      object as its text. */
  lemma {:induction false} LoadDump(v: Value)
    ensures Plain(v) ==> Load(Dump(v)) == v
    ensures v.VTuple? ==> Dump(v) == Dump(VList(v.items))
    ensures v.VOther? ==> Dump(v) == Dump(VStr(v.text))
  {
    match v
    case VList(items) =>
      forall i | 0 <= i < |items| ensures Plain(items[i]) ==> Load(Dump(items[i])) == items[i] {
        LoadDump(items[i]);
      }
      assert Plain(v) ==> Load(Dump(v)).items == items;
    case VDict(fields) =>
      forall i | 0 <= i < |fields| ensures Plain(fields[i].1) ==> (fields[i].0, Load(Dump(fields[i].1))) == fields[i] {
        LoadDump(fields[i].1);
      }
      assert Plain(v) ==> Load(Dump(v)).fields == fields;
    case _ =>
  }

  lemma {:induction false} LoadIsPlain(j: Json)
    ensures Plain(Load(j))
  {
    match j
    case JArray(items) =>
      forall i | 0 <= i < |items| ensures Plain(Load(items[i])) {
        LoadIsPlain(items[i]);
      }
    case JObject(fields) =>
      forall i | 0 <= i < |fields| ensures Plain(Load(fields[i].1)) {
        LoadIsPlain(fields[i].1);
      }
    case _ =>
  }

  /** Of several fields with the key, the last one counts. */
  lemma {:induction false} GetMeans<T>(fields: seq<(string, T)>, key: string)
    ensures match Get(fields, key)
      case None => forall i | 0 <= i < |fields| :: fields[i].0 != key
      case Some(value) => exists i | 0 <= i < |fields| ::
        fields[i] == (key, value) && forall j | i < j < |fields| :: fields[j].0 != key
  {
    if fields != [] {
      var k := |fields| - 1;
      if fields[k].0 != key {
        var init := fields[..k];
        GetMeans(init, key);
        match Get(init, key) {
          case None =>
          case Some(value) =>
            var i :| 0 <= i < |init| && init[i] == (key, value) && forall j | i < j < |init| :: init[j].0 != key;
            assert fields[i] == (key, value);
        }
      } else {
        assert fields[k] == (key, fields[k].1);
      }
    }
  }

  lemma EntryFields(id: string, kind: string, payload: Json, attempt: int, createdAt: string)
    ensures var fields := Entry(id, kind, payload, attempt, createdAt).fields;
      && Get(fields, "id") == Some(JString(id))
      && Get(fields, "type") == Some(JString(kind))
      && Get(fields, "payload") == Some(payload)
      && Get(fields, "attempt") == Some(JInt(attempt))
      && Get(fields, "created_at") == Some(JString(createdAt))
  {
    var fields := Entry(id, kind, payload, attempt, createdAt).fields;
    assert fields[..4][..3] == fields[..3] && fields[..3][..2] == fields[..2] && fields[..2][..1] == fields[..1];
    assert Get(fields[..1], "id") == Some(JString(id));
    assert Get(fields[..2], "id") == Some(JString(id)) && Get(fields[..2], "type") == Some(JString(kind));
    assert Get(fields[..3], "id") == Some(JString(id)) && Get(fields[..3], "type") == Some(JString(kind));
    assert Get(fields[..3], "payload") == Some(payload);
    assert Get(fields[..4], "payload") == Some(payload) && Get(fields[..4], "attempt") == Some(JInt(attempt));
    assert Get(fields[..4], "id") == Some(JString(id)) && Get(fields[..4], "type") == Some(JString(kind));
  }

  /** Decoding an entry keeps what identifies the job, and encoding the decoded job gives back
      the entry exactly, whatever the payload held. */
  lemma EncodeDecode(job: Job)
    ensures FromEntry(ToEntry(job)).Some?
    ensures var decoded := FromEntry(ToEntry(job)).value;
      && ToEntry(decoded) == ToEntry(job)
      && decoded == job.(payload := Load(Dump(VDict(job.payload))).fields)
  {
    var payload := Dump(VDict(job.payload));
    EntryFields(job.id, job.kind, payload, job.attempt, job.createdAt);
    DumpLoad(payload);
  }

  /** An entry decodes to a job if and only if it is an object that agrees with the encoding of that
      job on all five fields, the payload being one that JSON can give; other fields do not matter. */
  lemma DecodesIff(e: Json, job: Job)
    ensures FromEntry(e) == Some(job) <==>
      && e.JObject? && Load(Dump(VDict(job.payload))).fields == job.payload
      && forall key | key in ["id", "type", "payload", "attempt", "created_at"] ::
           Get(e.fields, key) == Get(ToEntry(job).fields, key)
  {
    EntryFields(job.id, job.kind, Dump(VDict(job.payload)), job.attempt, job.createdAt);
    if e.JObject? {
      var payload := Get(e.fields, "payload");
      if payload.Some? && payload.value.JObject? {
        DumpLoad(payload.value);
      }
    }
    hide Get, Dump, Load;
    assert "id" in ["id", "type", "payload", "attempt", "created_at"];
  }

  /** Entries as `enqueue` and `retry` write them. */
  predicate IsJobEntry(e: Json) {
    FromEntry(e).Some? && ToEntry(FromEntry(e).value) == e
  }

  /** The entry written by a retry decodes to the next attempt of the same job. */
  lemma RetryEntry(e: Json)
    requires IsJobEntry(e)
    ensures var job, e' := FromEntry(e).value, ToEntry(NextAttempt(FromEntry(e).value));
      && IsJobEntry(e')
      && FromEntry(e') == Some(NextAttempt(job))
  {
    var job := FromEntry(e).value;
    EncodeDecode(NextAttempt(job));
    assert Load(Dump(VDict(job.payload))).fields == job.payload by {
      DumpLoad(Get(e.fields, "payload").value);
    }
  }

  // ----- Dead letters -----

  const REDACTED_KEYS: seq<string> := ["api_key", "authorization", "password", "refresh_token", "token"]

  function LowerChar(c: char): char {
    if 'A' <= c <= 'Z' then (c as int + 32) as char else c
  }

  function Lower(s: string): string {
    seq(|s|, i requires 0 <= i < |s| => LowerChar(s[i]))
  }

  function Redact(v: Value): Value {
    match v
    case VDict(fields) =>
      VDict(seq(|fields|, i requires 0 <= i < |fields| =>
        (fields[i].0, if Lower(fields[i].0) in REDACTED_KEYS then VStr("[redacted]") else Redact(fields[i].1))))
    case VList(items) => VList(seq(|items|, i requires 0 <= i < |items| => Redact(items[i])))
    case _ => v
  }

  /** The envelope `move_to_dead_letter` writes. */
  function DeadLetter(job: Job, failedAt: string, error: string): Json {
    JObject([("job", ToEntry(job.(payload := Redact(VDict(job.payload)).fields))),
             ("failed_at", JString(failedAt)), ("error_type", JString(error))])
  }

  function DeadJob(e: Json): Option<Job> {
    if e.JObject? && Get(e.fields, "job").Some? then FromEntry(Get(e.fields, "job").value) else None
  }

  /** Redaction leaves the strings under other keys alone. */
  lemma {:induction false} RedactKeeps(fields: seq<(string, Value)>, key: string)
    requires Lower(key) !in REDACTED_KEYS
    ensures Get(Redact(VDict(fields)).fields, key) ==
      (if Get(fields, key).Some? then Some(Redact(Get(fields, key).value)) else None)
  {
    if fields != [] {
      var init := fields[..|fields| - 1];
      assert Redact(VDict(fields)).fields[..|init|] == Redact(VDict(init)).fields;
      RedactKeeps(init, key);
    }
  }

  /** No value under a credential-like key is anything but the redaction mark, at any depth. */
  ghost predicate Safe(v: Value) {
    match v
    case VDict(fields) =>
      forall i | 0 <= i < |fields| ::
        if Lower(fields[i].0) in REDACTED_KEYS then fields[i].1 == VStr("[redacted]") else Safe(fields[i].1)
    case VList(items) => forall i | 0 <= i < |items| :: Safe(items[i])
    case _ => true
  }

  /** Whatever was read from the queue is safe once redacted. */
  lemma {:induction false} RedactionIsSafe(j: Json)
    ensures Safe(Redact(Load(j)))
  {
    match j
    case JArray(items) =>
      forall i | 0 <= i < |items| ensures Safe(Redact(Load(items[i]))) {
        RedactionIsSafe(items[i]);
      }
    case JObject(fields) =>
      forall i | 0 <= i < |fields| ensures Safe(Redact(Load(fields[i].1))) {
        RedactionIsSafe(fields[i].1);
      }
    case _ =>
  }

  /** The key is the word in any mixture of upper and lower case. */
  predicate Spells(key: string, word: string) {
    |key| == |word| &&
    forall i | 0 <= i < |key| :: key[i] == word[i] || ('A' <= key[i] <= 'Z' && key[i] as int + 32 == word[i] as int)
  }

  lemma LowerSpells(key: string, word: string)
    requires forall i | 0 <= i < |word| :: !('A' <= word[i] <= 'Z')
    ensures Lower(key) == word <==> Spells(key, word)
  {
    if Spells(key, word) {
      assert Lower(key) == word;
    } else if |key| == |word| {
      var i :| 0 <= i < |key| && key[i] != word[i]
        && !('A' <= key[i] <= 'Z' && key[i] as int + 32 == word[i] as int);
      assert Lower(key)[i] != word[i];
    }
  }

  /** The sensitive keys, in any case. */
  lemma SensitiveIff(key: string)
    ensures Lower(key) in REDACTED_KEYS <==>
      || Spells(key, "api_key") || Spells(key, "authorization") || Spells(key, "password")
      || Spells(key, "refresh_token") || Spells(key, "token")
  {
    LowerSpells(key, "api_key");
    LowerSpells(key, "authorization");
    LowerSpells(key, "password");
    LowerSpells(key, "refresh_token");
    LowerSpells(key, "token");
  }

  /** Redaction changes nothing that is safe already. */
  lemma {:induction false} SafeIsKept(v: Value)
    requires Safe(v)
    ensures Redact(v) == v
  {
    match v
    case VList(items) =>
      forall i | 0 <= i < |items| ensures Redact(items[i]) == items[i] {
        SafeIsKept(items[i]);
      }
      assert Redact(v).items == items;
    case VDict(fields) =>
      forall i | 0 <= i < |fields| ensures Redact(v).fields[i] == fields[i] {
        if Lower(fields[i].0) !in REDACTED_KEYS {
          SafeIsKept(fields[i].1);
        }
      }
      assert Redact(v).fields == fields;
    case _ =>
  }

  lemma {:induction false} RedactIsPlain(v: Value)
    requires Plain(v)
    ensures Plain(Redact(v))
  {
    match v
    case VList(items) =>
      forall i | 0 <= i < |items| ensures Plain(Redact(items[i])) {
        RedactIsPlain(items[i]);
      }
    case VDict(fields) =>
      forall i | 0 <= i < |fields| ensures Plain(Redact(v).fields[i].1) {
        RedactIsPlain(fields[i].1);
      }
    case _ =>
  }

  lemma {:induction false} DumpedGet(fields: seq<(string, Value)>, key: string)
    ensures Get(Dump(VDict(fields)).fields, key) ==
      (if Get(fields, key).Some? then Some(Dump(Get(fields, key).value)) else None)
  {
    if fields != [] {
      var init := fields[..|fields| - 1];
      assert Dump(VDict(fields)).fields[..|init|] == Dump(VDict(init)).fields;
      DumpedGet(init, key);
    }
  }

  lemma {:induction false} LoadedGet(fields: seq<(string, Json)>, key: string)
    ensures Get(Load(JObject(fields)).fields, key) ==
      (if Get(fields, key).Some? then Some(Load(Get(fields, key).value)) else None)
  {
    if fields != [] {
      var init := fields[..|fields| - 1];
      assert Load(JObject(fields)).fields[..|init|] == Load(JObject(init)).fields;
      LoadedGet(init, key);
    }
  }

  // ----- Billing webhook jobs -----

  /** The event a billing webhook job is about, as its handler reads it. */
  function NamedEvent(job: Job): Option<string> {
    if job.kind != "process_billing_webhook" then None
    else
      var value := Get(job.payload, "webhook_event_id");
      if value.Some? && value.value.VStr? && value.value.s != "" then Some(value.value.s) else None
  }

  /** Which jobs name an event: those of that type with a nonempty text under that key. */
  lemma NamedEventIff(job: Job, event: string)
    ensures NamedEvent(job) == Some(event) <==>
      job.kind == "process_billing_webhook" && event != "" && Get(job.payload, "webhook_event_id") == Some(VStr(event))
  {
  }

  function WebhookJob(id: string, event: string, createdAt: string): Job {
    Job(id, "process_billing_webhook", [("webhook_event_id", VStr(event))], 0, createdAt)
  }

  /** The entry the route enqueues decodes to a first attempt at that event. */
  lemma WebhookEntry(id: string, event: string, createdAt: string)
    requires event != ""
    ensures var e := ToEntry(WebhookJob(id, event, createdAt));
      && IsJobEntry(e)
      && FromEntry(e).value.id == id
      && FromEntry(e).value.attempt == 0
      && NamedEvent(FromEntry(e).value) == Some(event)
  {
    var job := WebhookJob(id, event, createdAt);
    EncodeDecode(job);
    DumpedGet(job.payload, "webhook_event_id");
    LoadedGet(Dump(VDict(job.payload)).fields, "webhook_event_id");
  }

  lemma RedactedEvent(job: Job)
    requires NamedEvent(job).Some?
    ensures NamedEvent(job.(payload := Redact(VDict(job.payload)).fields)) == NamedEvent(job)
  {
    var key := "webhook_event_id";
    assert Lower(key) !in REDACTED_KEYS by {
      assert Lower(key)[0] == 'w';
    }
    RedactKeeps(job.payload, key);
  }

  lemma ReloadedEvent(job: Job)
    requires NamedEvent(job).Some?
    ensures NamedEvent(job.(payload := Load(Dump(VDict(job.payload))).fields)) == NamedEvent(job)
  {
    var key := "webhook_event_id";
    DumpedGet(job.payload, key);
    LoadedGet(Dump(VDict(job.payload)).fields, key);
  }

  lemma EnvelopeJob(job: Json, failedAt: string, error: string)
    ensures var fields := [("job", job), ("failed_at", JString(failedAt)), ("error_type", JString(error))];
      && Get(fields, "job") == Some(job)
      && Get(fields, "failed_at") == Some(JString(failedAt)) && Get(fields, "error_type") == Some(JString(error))
  {
    var fields := [("job", job), ("failed_at", JString(failedAt)), ("error_type", JString(error))];
    assert "failed_at"[0] != "error_type"[0];
    assert fields[..2][..1] == fields[..1];
    assert Get(fields[..1], "job") == Some(job);
    assert Get(fields[..2], "job") == Some(job) && Get(fields[..2], "failed_at") == Some(JString(failedAt));
  }

  /** A dead letter still names its job and the event that job was about, and says when and with which
      error it failed. */
  lemma DeadLetterNames(job: Job, failedAt: string, error: string)
    ensures var dead, letter := DeadJob(DeadLetter(job, failedAt, error)), DeadLetter(job, failedAt, error);
      && letter.JObject? && Get(letter.fields, "failed_at") == Some(JString(failedAt))
      && Get(letter.fields, "error_type") == Some(JString(error))
      && dead.Some?
      && dead.value.id == job.id && dead.value.kind == job.kind && dead.value.createdAt == job.createdAt
      && dead.value.attempt == job.attempt
      && (NamedEvent(job).Some? ==> NamedEvent(dead.value) == NamedEvent(job))
  {
    hide ToEntry, FromEntry, NamedEvent, Get;
    var safe := job.(payload := Redact(VDict(job.payload)).fields);
    EnvelopeJob(ToEntry(safe), failedAt, error);
    EncodeDecode(safe);
    if NamedEvent(job).Some? {
      RedactedEvent(job);
      ReloadedEvent(safe);
    }
  }

  /** The letter of a job read from the queue holds its payload with every sensitive value marked, and
      with nothing else changed. */
  lemma DeadLetterIsSafe(e: Json, failedAt: string, error: string)
    requires FromEntry(e).Some?
    ensures var job := FromEntry(e).value;
      var dead := DeadJob(DeadLetter(job, failedAt, error));
      && dead.Some? && Safe(VDict(dead.value.payload))
      && VDict(dead.value.payload) == Redact(VDict(job.payload))
      && (Safe(VDict(job.payload)) ==> dead.value == job)
  {
    var job, payload := FromEntry(e).value, Get(e.fields, "payload").value;
    var redacted := Redact(VDict(job.payload));
    assert VDict(job.payload) == Load(payload);
    RedactionIsSafe(payload);
    LoadIsPlain(payload);
    RedactIsPlain(Load(payload));
    LoadDump(redacted);
    var safe := job.(payload := redacted.fields);
    EnvelopeJob(ToEntry(safe), failedAt, error);
    EncodeDecode(safe);
    if Safe(VDict(job.payload)) {
      SafeIsKept(VDict(job.payload));
    }
    hide ToEntry, FromEntry, Get, Redact, Dump, Load, Safe;
    assert VDict(redacted.fields) == redacted;
  }
}
