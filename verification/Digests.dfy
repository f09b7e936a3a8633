/**
 Fingerprints of jobs, grants and permission decisions.

 SHA-256 over canonical JSON is modelled symbolically: a digest is the free
 term of what was hashed, so two digests are equal exactly when the hashed
 values are equal.
 */
module Digests {
  import opened Wrappers

  /** A JSON document. Integers and floats are distinct because they are written differently. */
  datatype Json =
    | JNull
    | JBool(b: bool)
    | JInt(i: int)
    | JFloat(r: real)
    | JStr(s: string)
    | JList(items: seq<Json>)
    | JObj(fields: map<string, Json>)

  type Job = map<string, Json>

  /** The parts of an action proposal and its capability that a permission fingerprint covers. */
  datatype Proposal = Proposal(
    action: string, arguments: string, caller: string, session: string,
    target: string, foregroundApp: string, permissions: set<string>)

  datatype Digest =
    | JobDigest(semantic: Job)
    | ConfigDigest(text: string)
    | ScriptDigest
    | GrantDigest(job: Digest, config: Digest, script: Digest)
    | BindingDigest(home: string, grant: Digest, owner: string, session: string, until: real, script: Digest)
    | PermissionDigest(capabilityId: string, capabilityVersion: string, proposal: Proposal)

  const SCRIPT_NAME := "jl-reminder.py"

  const RUNTIME_FIELDS: set<string> := {
    "enabled", "state", "paused_at", "paused_reason", "next_run_at", "last_run_at",
    "last_status", "last_error", "last_delivery_error", "last_delivery_unverified",
    "failure_streak", "fire_claim", "run_claim", "execution_id", "_scheduled_instant",
    "preflight_alerted", "last_fire_error", "last_delivery_queued"}

  /** Fields a reminder may carry with a meaning of their own. */
  const ALLOWED_FIELDS: set<string> := {
    "id", "name", "prompt", "script", "no_agent", "schedule", "schedule_display",
    "repeat", "created_at", "deliver", "failure_deliver"}

  /** Known fields that a reminder may only carry empty. */
  const FORBIDDEN_FIELDS: set<string> := {
    "skills", "skill", "model", "provider", "base_url", "provider_snapshot",
    "model_snapshot", "monitor_script", "monitor_url", "monitor_state", "context_from",
    "origin", "enabled_toolsets", "workdir", "attach_to_session", "reasoning_effort"}

  const KNOWN_FIELDS: set<string> := ALLOWED_FIELDS + FORBIDDEN_FIELDS

  function Lookup(job: Job, key: string): Json {
    if key in job then job[key] else JNull
  }

  /** Python's `value in (None, [], "", False)`; zero compares equal to `False`. */
  predicate Blank(v: Json) {
    v == JNull || v == JList([]) || v == JStr("") || v == JBool(false) || v == JInt(0) || v == JFloat(0.0)
  }

  predicate BoundedText(v: Json) {
    v.JStr? && 0 < |v.s| <= 4096
  }

  predicate ScheduleAllowed(v: Json) {
    && v.JObj?
    && (Lookup(v.fields, "kind") == JStr("once") || Lookup(v.fields, "kind") == JStr("interval"))
  }

  predicate RepeatAllowed(v: Json) {
    v.JObj? && v.fields.Keys == {"times", "completed"}
  }

  /** How often a reminder repeats, apart from its progress. */
  function Times(job: Job): Json {
    if Lookup(job, "repeat").JObj? then Lookup(Lookup(job, "repeat").fields, "times") else JNull
  }

  /** The job as it is hashed: no runtime fields, and `repeat` without its progress counter. */
  function Semantic(job: Job): Job {
    (map k | k in job && k !in RUNTIME_FIELDS :: job[k])["repeat" := JObj(map["times" := Times(job)])]
  }

  function SemanticFingerprint(job: Job): Result<Digest> {
    if exists k :: k in job && k !in KNOWN_FIELDS && k !in RUNTIME_FIELDS then Err("unknown_job_field")
    else if Lookup(job, "no_agent") != JBool(true)
         || Lookup(job, "script") != JStr(SCRIPT_NAME)
         || Lookup(job, "deliver") != JStr("local")
         || Lookup(job, "failure_deliver") != JStr("local") then Err("forbidden_job")
    else if exists k :: k in FORBIDDEN_FIELDS && !Blank(Lookup(job, k)) then Err("forbidden_job_field")
    else if !(BoundedText(Lookup(job, "id")) && BoundedText(Lookup(job, "name")) && BoundedText(Lookup(job, "prompt")))
    then Err("invalid_job_text")
    else if !ScheduleAllowed(Lookup(job, "schedule")) || !RepeatAllowed(Lookup(job, "repeat"))
    then Err("invalid_schedule")
    else Ok(JobDigest(Semantic(job)))
  }

  /** The field is there and is a text of the allowed length. */
  predicate HasText(job: Job, key: string) {
    key in job && job[key].JStr? && 1 <= |job[key].s| <= 4096
  }

  /** The field is there and holds just this. */
  predicate FieldIs(job: Job, key: string, v: Json) {
    key in job && job[key] == v
  }

  /** The field is there, and holds an object. */
  predicate HasObject(job: Job, key: string) {
    key in job && job[key].JObj?
  }

  /** A reminder of the one accepted form, field by field. */
  ghost predicate Acceptable(job: Job) {
    && (forall k :: k in job ==> k in KNOWN_FIELDS || k in RUNTIME_FIELDS)
    && FieldIs(job, "no_agent", JBool(true)) && FieldIs(job, "script", JStr("jl-reminder.py"))
    && FieldIs(job, "deliver", JStr("local")) && FieldIs(job, "failure_deliver", JStr("local"))
    && (forall k :: k in job && k in FORBIDDEN_FIELDS ==>
          job[k] in [JNull, JList([]), JStr(""), JBool(false), JInt(0), JFloat(0.0)])
    && HasText(job, "id") && HasText(job, "name") && HasText(job, "prompt")
    && HasObject(job, "schedule")
    && (FieldIs(job["schedule"].fields, "kind", JStr("once"))
        || FieldIs(job["schedule"].fields, "kind", JStr("interval")))
    && HasObject(job, "repeat") && job["repeat"].fields.Keys == {"times", "completed"}
  }

  lemma LookupFinds(job: Job, key: string, v: Json)
    ensures v != JNull ==> (Lookup(job, key) == v <==> FieldIs(job, key, v))
    ensures BoundedText(Lookup(job, key)) <==> HasText(job, key)
    ensures Lookup(job, key).JObj? <==> HasObject(job, key)
  {
  }

  lemma NothingForbidden(job: Job)
    ensures (exists k :: k in FORBIDDEN_FIELDS && !Blank(Lookup(job, k)))
      <==> !(forall k :: k in job && k in FORBIDDEN_FIELDS ==>
               job[k] in [JNull, JList([]), JStr(""), JBool(false), JInt(0), JFloat(0.0)])
  {
    if k :| k in FORBIDDEN_FIELDS && !Blank(Lookup(job, k)) {
      assert k in job;
    }
    if k :| k in job && k in FORBIDDEN_FIELDS
            && job[k] !in [JNull, JList([]), JStr(""), JBool(false), JInt(0), JFloat(0.0)] {
      assert !Blank(Lookup(job, k));
    }
  }

  lemma ScheduleFits(job: Job)
    ensures ScheduleAllowed(Lookup(job, "schedule")) <==>
      && HasObject(job, "schedule")
      && (FieldIs(job["schedule"].fields, "kind", JStr("once"))
          || FieldIs(job["schedule"].fields, "kind", JStr("interval")))
    ensures RepeatAllowed(Lookup(job, "repeat")) <==>
      HasObject(job, "repeat") && job["repeat"].fields.Keys == {"times", "completed"}
  {
    LookupFinds(job, "schedule", JNull);
    LookupFinds(job, "repeat", JNull);
    if HasObject(job, "schedule") {
      LookupFinds(job["schedule"].fields, "kind", JStr("once"));
      LookupFinds(job["schedule"].fields, "kind", JStr("interval"));
    }
  }

  lemma DeliveryFits(job: Job)
    ensures Lookup(job, "no_agent") == JBool(true) <==> FieldIs(job, "no_agent", JBool(true))
    ensures Lookup(job, "script") == JStr("jl-reminder.py") <==> FieldIs(job, "script", JStr("jl-reminder.py"))
    ensures Lookup(job, "deliver") == JStr("local") <==> FieldIs(job, "deliver", JStr("local"))
    ensures Lookup(job, "failure_deliver") == JStr("local") <==> FieldIs(job, "failure_deliver", JStr("local"))
  {
    LookupFinds(job, "no_agent", JBool(true));
    LookupFinds(job, "script", JStr("jl-reminder.py"));
    LookupFinds(job, "deliver", JStr("local"));
    LookupFinds(job, "failure_deliver", JStr("local"));
  }

  /**
   A job is accepted exactly in the one allowed form, and then what is
   hashed is the job without its runtime fields.
   */
  lemma AcceptedExactly(job: Job)
    ensures SemanticFingerprint(job).Ok? <==> Acceptable(job)
    ensures Acceptable(job) ==> SemanticFingerprint(job) == Ok(JobDigest(Semantic(job)))
  {
    hide Lookup, Blank, BoundedText, ScheduleAllowed, RepeatAllowed, Semantic, FieldIs, HasText, HasObject;
    NothingForbidden(job);
    DeliveryFits(job);
    ScheduleFits(job);
    LookupFinds(job, "id", JNull);
    LookupFinds(job, "name", JNull);
    LookupFinds(job, "prompt", JNull);
    if Acceptable(job) {
      assert !exists k :: k in job && k !in KNOWN_FIELDS && k !in RUNTIME_FIELDS;
    }
  }

  /** What an approval of a job commits to: every field except runtime fields and repeat progress. */
  ghost predicate SameReminder(a: Job, b: Job) {
    && (forall k | k !in RUNTIME_FIELDS && k != "repeat" ::
          (k in a <==> k in b) && (k in a && k in b ==> a[k] == b[k]))
    && Times(a) == Times(b)
  }

  lemma SemanticIsExact(a: Job, b: Job)
    ensures Semantic(a) == Semantic(b) <==> SameReminder(a, b)
  {
    var x, y := Semantic(a), Semantic(b);
    if x == y {
      forall k | k !in RUNTIME_FIELDS && k != "repeat"
        ensures (k in a <==> k in b) && (k in a && k in b ==> a[k] == b[k])
      {
        assert k in a <==> k in x;
        assert k in b <==> k in y;
        if k in a {
          assert x[k] == a[k] && y[k] == b[k];
        }
      }
      assert x["repeat"].fields["times"] == y["repeat"].fields["times"];
    }
    if SameReminder(a, b) {
      forall k ensures (k in x <==> k in y) && (k in x && k in y ==> x[k] == y[k]) {
      }
      assert x == y;
    }
  }

  /** Two accepted jobs share a fingerprint exactly when they are the same reminder. */
  lemma FingerprintIsExact(a: Job, b: Job)
    requires SemanticFingerprint(a).Ok? && SemanticFingerprint(b).Ok?
    ensures SemanticFingerprint(a) == SemanticFingerprint(b) <==> SameReminder(a, b)
  {
    SemanticIsExact(a, b);
  }

  /** Both jobs are accepted, and they are the same reminder. */
  ghost predicate SameAccepted(a: Job, b: Job) {
    SemanticFingerprint(a).Ok? && SemanticFingerprint(b).Ok? && SameReminder(a, b)
  }

  lemma SameAcceptedTransitive(a: Job, b: Job, c: Job)
    requires SameAccepted(a, b) && SameAccepted(b, c)
    ensures SameAccepted(a, c)
  {
    FingerprintIsExact(a, b);
    FingerprintIsExact(b, c);
    FingerprintIsExact(a, c);
  }

  /**
   An accepted job runs the fixed script without an agent, delivers locally only,
   and names no model, skill or tool.
   */
  lemma AcceptedJobIsConfined(job: Job, field: string)
    requires SemanticFingerprint(job).Ok?
    ensures field in job && field !in ALLOWED_FIELDS && field !in RUNTIME_FIELDS ==> Blank(job[field])
    ensures Lookup(job, "no_agent") == JBool(true) && Lookup(job, "script") == JStr(SCRIPT_NAME)
    ensures Lookup(job, "deliver") == JStr("local") && Lookup(job, "failure_deliver") == JStr("local")
  {
    if field in job && field !in ALLOWED_FIELDS && field !in RUNTIME_FIELDS {
      assert field in KNOWN_FIELDS;
      assert field in FORBIDDEN_FIELDS;
    }
  }

  /** A paused reminder of the accepted form, due at one instant. */
  const REMINDER: Job := map[
    "id" := JStr("r1"), "name" := JStr("water"), "prompt" := JStr("drink"), "script" := JStr(SCRIPT_NAME),
    "no_agent" := JBool(true), "deliver" := JStr("local"), "failure_deliver" := JStr("local"),
    "schedule" := JObj(map["kind" := JStr("once")]),
    "repeat" := JObj(map["times" := JNull, "completed" := JInt(0)]),
    "state" := JStr("paused"), "enabled" := JBool(false), "_scheduled_instant" := JStr("noon")]

  const REMINDER_FIELDS: set<string> := {
    "id", "name", "prompt", "script", "no_agent", "deliver", "failure_deliver", "schedule", "repeat",
    "state", "enabled", "_scheduled_instant"}

  lemma ReminderKeys()
    ensures REMINDER.Keys == REMINDER_FIELDS
  {
  }

  lemma NoneForbidden(k: string)
    requires k in REMINDER_FIELDS
    ensures k !in FORBIDDEN_FIELDS
  {
  }

  lemma AllKnown(k: string)
    requires k in REMINDER_FIELDS
    ensures k in KNOWN_FIELDS || k in RUNTIME_FIELDS
  {
  }

  lemma ReminderFields()
    ensures forall k :: k in REMINDER ==> k !in FORBIDDEN_FIELDS && (k in KNOWN_FIELDS || k in RUNTIME_FIELDS)
  {
    ReminderKeys();
    forall k | k in REMINDER ensures k !in FORBIDDEN_FIELDS && (k in KNOWN_FIELDS || k in RUNTIME_FIELDS) {
      assert k in REMINDER_FIELDS by {
        assert k in REMINDER.Keys;
      }
      NoneForbidden(k);
      AllKnown(k);
    }
  }

  lemma ReminderDelivery()
    ensures Lookup(REMINDER, "no_agent") == JBool(true) && Lookup(REMINDER, "script") == JStr(SCRIPT_NAME)
    ensures Lookup(REMINDER, "deliver") == JStr("local") && Lookup(REMINDER, "failure_deliver") == JStr("local")
  {
  }

  lemma ReminderTexts()
    ensures BoundedText(Lookup(REMINDER, "id")) && BoundedText(Lookup(REMINDER, "name"))
    ensures BoundedText(Lookup(REMINDER, "prompt"))
  {
  }

  lemma ReminderSchedule()
    ensures ScheduleAllowed(Lookup(REMINDER, "schedule")) && RepeatAllowed(Lookup(REMINDER, "repeat"))
  {
    assert REMINDER["repeat"].fields.Keys == {"times", "completed"};
  }

  lemma ReminderIsAccepted()
    ensures SemanticFingerprint(REMINDER).Ok?
  {
    hide BoundedText, ScheduleAllowed, RepeatAllowed, Semantic;
    ReminderFields();
    ReminderDelivery();
    ReminderTexts();
    ReminderSchedule();
  }

  function GrantFingerprint(job: Job, config: string): Result<Digest> {
    match SemanticFingerprint(job)
    case Err(code) => Err(code)
    case Ok(semantic) => Ok(GrantDigest(semantic, ConfigDigest(config), ScriptDigest))
  }

  /** The owner, session and expiry part of a binding request; the clock is read once per bound. */
  predicate BindingAllowed(owner: string, session: string, until: real, firstRead: real, secondRead: real) {
    && 0 < |owner| <= 256
    && 0 < |session| <= 256
    && firstRead < until <= secondRead + 86400.0
  }

  function Binding(home: string, job: Job, config: string, owner: string, session: string, until: real,
                   firstRead: real, secondRead: real): Result<Digest>
  {
    if !BindingAllowed(owner, session, until, firstRead, secondRead) then Err("invalid_grant")
    else match GrantFingerprint(job, config)
      case Err(code) => Err(code)
      case Ok(grant) => Ok(BindingDigest(home, grant, owner, session, until, ScriptDigest))
  }
}
