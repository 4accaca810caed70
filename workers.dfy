/** The background monitoring worker of lib/workers.js: it gathers the stored
    check records, validates each, probes it, logs the outcome, saves the new
    up/down state and alerts the owner when that state flips; a second cycle
    rotates the logs into archives.

    The probe itself, the clock and the SMS gateway are outside: a probe is
    the sequence of events its request emits, `Date.now()` is a parameter,
    an alert is recorded as the message handed to the gateway, and
    `JSON.stringify` is a function the worker is constructed with. The
    asynchronous callbacks are run to completion one check, and one log,
    at a time. */
module Workers {
  import opened Json
  import opened Fields
  import opened LogStore
  import opened RecordStore

  // ---------------------------------------------------------------------
  // Check records and their validation (validateCheckData)

  type Record = map<string, Json>

  const Protocols: seq<string> := ["https", "http"]
  const CheckMethods: seq<string> := ["get", "put", "post", "delete"]
  const States: seq<string> := ["up", "down"]

  /** The properties validation assigns on the record. */
  const CoercedKeys: set<string> :=
    {"id", "userPhone", "protocol", "url", "method", "successCodes", "timeoutSeconds", "state", "lastChecked"}

  // The value validation assigns to each coerced property of `o`; each is
  // truthy exactly when that field passes.

  function CoercedId(o: Json): (r: Json)
    ensures Truthy(Some(r)) <==> o.JObj? && "id" in o.fields && o.fields["id"].JStr? && Utf16Length(Trim(o.fields["id"].s)) == 20
    ensures Truthy(Some(r)) ==> r == JStr(Trim(o.fields["id"].s)) && Trimmed(r.s)
  {
    OrFalse(TrimmedOfLength(Get(o, "id"), 20))
  }

  function CoercedPhone(o: Json): (r: Json)
    ensures Truthy(Some(r)) <==> o.JObj? && "userPhone" in o.fields && o.fields["userPhone"].JStr? && Utf16Length(Trim(o.fields["userPhone"].s)) == 10
    ensures Truthy(Some(r)) ==> r == JStr(Trim(o.fields["userPhone"].s)) && Trimmed(r.s)
  {
    OrFalse(TrimmedOfLength(Get(o, "userPhone"), 10))
  }

  function CoercedProtocol(o: Json): (r: Json)
    ensures Truthy(Some(r)) <==> o.JObj? && "protocol" in o.fields && o.fields["protocol"].JStr? && o.fields["protocol"].s in Protocols
    ensures Truthy(Some(r)) ==> r == o.fields["protocol"]
  {
    OrFalse(OneOf(Get(o, "protocol"), Protocols))
  }

  function CoercedUrl(o: Json): (r: Json)
    ensures Truthy(Some(r)) <==> o.JObj? && "url" in o.fields && o.fields["url"].JStr? && Trim(o.fields["url"].s) != ""
    ensures Truthy(Some(r)) ==> r == JStr(Trim(o.fields["url"].s)) && Trimmed(r.s)
  {
    OrFalse(NonBlank(Get(o, "url")))
  }

  function CoercedMethod(o: Json): (r: Json)
    ensures Truthy(Some(r)) <==> o.JObj? && "method" in o.fields && o.fields["method"].JStr? && o.fields["method"].s in CheckMethods
    ensures Truthy(Some(r)) ==> r == o.fields["method"]
  {
    OrFalse(OneOf(Get(o, "method"), CheckMethods))
  }

  function CoercedCodes(o: Json): (r: Json)
    ensures Truthy(Some(r)) <==> o.JObj? && "successCodes" in o.fields && o.fields["successCodes"].JArr? && o.fields["successCodes"].items != []
    ensures Truthy(Some(r)) ==> r == o.fields["successCodes"]
  {
    var codes := NonEmptyArray(Get(o, "successCodes"));
    if codes.Some? then JArr(codes.value) else JBool(false)
  }

  function CoercedTimeout(o: Json): (r: Json)
    ensures Truthy(Some(r)) <==>
      o.JObj? && "timeoutSeconds" in o.fields && o.fields["timeoutSeconds"].JNum?
      && IsIntegral(o.fields["timeoutSeconds"].n) && 1.0 <= o.fields["timeoutSeconds"].n <= 5.0
    ensures Truthy(Some(r)) ==> r == o.fields["timeoutSeconds"]
  {
    var t := TimeoutSeconds(Get(o, "timeoutSeconds"));
    if t.Some? then JNum(t.value as real) else JBool(false)
  }

  /** A missing or unknown state starts as "down". */
  function CoercedState(o: Json): (r: Json)
    ensures r == (if o.JObj? && "state" in o.fields && o.fields["state"].JStr? && o.fields["state"].s in States
                  then o.fields["state"] else JStr("down"))
  {
    var st := OneOf(Get(o, "state"), States);
    JStr(if st.Some? then st.value else "down")
  }

  /** Anything but a positive number becomes `false`. */
  function CoercedLastChecked(o: Json): (r: Json)
    ensures r == (if o.JObj? && "lastChecked" in o.fields && o.fields["lastChecked"].JNum? && o.fields["lastChecked"].n > 0.0
                  then o.fields["lastChecked"] else JBool(false))
  {
    var last := Get(o, "lastChecked");
    if TypeOf(last) == "number" && last.value.n > 0.0 then last.value else JBool(false)
  }

  function CoercedField(o: Json, k: string): Json
  {
    if k == "id" then CoercedId(o)
    else if k == "userPhone" then CoercedPhone(o)
    else if k == "protocol" then CoercedProtocol(o)
    else if k == "url" then CoercedUrl(o)
    else if k == "method" then CoercedMethod(o)
    else if k == "successCodes" then CoercedCodes(o)
    else if k == "timeoutSeconds" then CoercedTimeout(o)
    else if k == "state" then CoercedState(o)
    else CoercedLastChecked(o)
  }

  /** The record after the in-place coercions. A value that is not an object
      starts as `{}`; an array keeps its identity in the source, but every
      property read on it is `undefined` just as on `{}`, so it is rejected
      the same way. */
  function Coerced(raw: Json): (r: Record)
    ensures CoercedKeys <= r.Keys
  {
    var o := if raw.JObj? then raw else JObj(map[]);
    map k | k in o.fields.Keys + CoercedKeys :: if k in CoercedKeys then CoercedField(o, k) else o.fields[k]
  }

  /** The seven required fields, stated on the raw record: what a record must
      satisfy to be probed. */
  predicate Acceptable(raw: Json)
  {
    && raw.JObj?
    && "id" in raw.fields && raw.fields["id"].JStr? && Utf16Length(Trim(raw.fields["id"].s)) == 20
    && "userPhone" in raw.fields && raw.fields["userPhone"].JStr? && Utf16Length(Trim(raw.fields["userPhone"].s)) == 10
    && "protocol" in raw.fields && raw.fields["protocol"].JStr? && raw.fields["protocol"].s in Protocols
    && "url" in raw.fields && raw.fields["url"].JStr? && Trim(raw.fields["url"].s) != ""
    && "method" in raw.fields && raw.fields["method"].JStr? && raw.fields["method"].s in CheckMethods
    && "successCodes" in raw.fields && raw.fields["successCodes"].JArr? && raw.fields["successCodes"].items != []
    && "timeoutSeconds" in raw.fields && raw.fields["timeoutSeconds"].JNum?
    && IsIntegral(raw.fields["timeoutSeconds"].n) && 1.0 <= raw.fields["timeoutSeconds"].n <= 5.0
  }

  predicate TrimmedString(f: Record, k: string)
  {
    k in f && f[k].JStr? && Trimmed(f[k].s)
  }

  /** The string properties the alert message is built from. */
  predicate Describable(f: Record)
  {
    && "userPhone" in f && f["userPhone"].JStr?
    && "protocol" in f && f["protocol"].JStr?
    && "url" in f && f["url"].JStr?
    && "method" in f && f["method"].JStr?
    && "state" in f && f["state"].JStr?
  }

  /** The shape of a validated check: what the rest of the worker relies on. */
  predicate Valid(f: Record)
  {
    && TrimmedString(f, "id") && Utf16Length(f["id"].s) == 20
    && TrimmedString(f, "userPhone") && Utf16Length(f["userPhone"].s) == 10
    && "protocol" in f && f["protocol"].JStr? && f["protocol"].s in Protocols
    && TrimmedString(f, "url") && f["url"].s != ""
    && "method" in f && f["method"].JStr? && f["method"].s in CheckMethods
    && "successCodes" in f && f["successCodes"].JArr? && f["successCodes"].items != []
    && "timeoutSeconds" in f && f["timeoutSeconds"].JNum?
    && IsIntegral(f["timeoutSeconds"].n) && 1.0 <= f["timeoutSeconds"].n <= 5.0
    && "state" in f && f["state"].JStr? && f["state"].s in States
    && "lastChecked" in f && (f["lastChecked"] == JBool(false) || (f["lastChecked"].JNum? && f["lastChecked"].n > 0.0))
  }

  /** How the validated record `r` relates to the raw fields: the three
      free-text fields trimmed, the other required ones kept, `state` and
      `lastChecked` defaulted, and every other property untouched. */
  predicate ValidatedFrom(raw: Record, r: Record)
  {
    && r.Keys == raw.Keys + CoercedKeys
    && (forall k :: k in raw && k !in CoercedKeys ==> r[k] == raw[k])
    && "id" in raw && raw["id"].JStr? && r["id"] == JStr(Trim(raw["id"].s))
    && "userPhone" in raw && raw["userPhone"].JStr? && r["userPhone"] == JStr(Trim(raw["userPhone"].s))
    && "url" in raw && raw["url"].JStr? && r["url"] == JStr(Trim(raw["url"].s))
    && "protocol" in raw && r["protocol"] == raw["protocol"]
    && "method" in raw && r["method"] == raw["method"]
    && "successCodes" in raw && r["successCodes"] == raw["successCodes"]
    && "timeoutSeconds" in raw && r["timeoutSeconds"] == raw["timeoutSeconds"]
    && r["state"] == (if "state" in raw && raw["state"].JStr? && raw["state"].s in States then raw["state"] else JStr("down"))
    && r["lastChecked"] ==
         (if "lastChecked" in raw && raw["lastChecked"].JNum? && raw["lastChecked"].n > 0.0
          then raw["lastChecked"] else JBool(false))
  }

  /** All seven required coerced fields are truthy. */
  predicate Admitted(c: Record)
    requires CoercedKeys <= c.Keys
  {
    && Truthy(Some(c["id"])) && Truthy(Some(c["userPhone"])) && Truthy(Some(c["protocol"]))
    && Truthy(Some(c["url"])) && Truthy(Some(c["method"])) && Truthy(Some(c["successCodes"]))
    && Truthy(Some(c["timeoutSeconds"]))
  }

  lemma CoercedValues(raw: Json)
    ensures var o := if raw.JObj? then raw else JObj(map[]);
      var c := Coerced(raw);
      && c["id"] == CoercedId(o)
      && c["userPhone"] == CoercedPhone(o)
      && c["protocol"] == CoercedProtocol(o)
      && c["url"] == CoercedUrl(o)
      && c["method"] == CoercedMethod(o)
      && c["successCodes"] == CoercedCodes(o)
      && c["timeoutSeconds"] == CoercedTimeout(o)
      && c["state"] == CoercedState(o)
      && c["lastChecked"] == CoercedLastChecked(o)
  {
  }

  lemma AdmittedIffAcceptable(raw: Json)
    ensures Admitted(Coerced(raw)) <==> Acceptable(raw)
  {
    CoercedValues(raw);
  }

  lemma CoercedFromAcceptable(o: Json)
    ensures Acceptable(o) ==> ValidatedFrom(o.fields, Coerced(o)) && Valid(Coerced(o))
  {
    CoercedValues(o);
    if Acceptable(o) {
      var c := Coerced(o);
      assert forall k :: k in o.fields && k !in CoercedKeys ==> k in c && c[k] == o.fields[k];
    }
  }

  /** `validateCheckData`: the coerced record goes on to be probed exactly
      when all seven required fields hold, and it is then valid and related
      to the raw one field by field; `state` and `lastChecked` are defaulted,
      never a cause of rejection. */
  function ValidateCheckData(raw: Json): (r: Option<Record>)
    ensures r.Some? <==> Acceptable(raw)
    ensures r.Some? ==> Valid(r.value) && ValidatedFrom(raw.fields, r.value)
  {
    var c := Coerced(raw);
    AdmittedIffAcceptable(raw);
    CoercedFromAcceptable(raw);
    if Admitted(c) then Some(c) else None
  }

  /** A valid record satisfies the seven requirements on the raw record. */
  lemma ValidIsAcceptable(f: Record)
    requires Valid(f)
    ensures Acceptable(JObj(f))
  {
    var o := JObj(f);
    assert o.fields == f;
    TrimOfTrimmed(o.fields["id"].s);
    TrimOfTrimmed(o.fields["userPhone"].s);
    TrimOfTrimmed(o.fields["url"].s);
  }

  lemma KeptIfTrimmed(a: Json, b: Json)
    requires b.JStr? && Trimmed(b.s) && a == JStr(Trim(b.s))
    ensures a == b
  {
    TrimOfTrimmed(b.s);
  }

  /** Validation relates a valid record only to itself. */
  lemma ValidatedFromValid(f: Record, r: Record)
    requires Valid(f) && ValidatedFrom(f, r)
    ensures r == f
  {
    KeptIfTrimmed(r["id"], f["id"]);
    KeptIfTrimmed(r["userPhone"], f["userPhone"]);
    KeptIfTrimmed(r["url"], f["url"]);
    assert r.Keys == f.Keys;
    forall k | k in f
      ensures r[k] == f[k]
    {
    }
  }

  /** Validation of an already validated record changes nothing: the record
      the worker saves after a probe passes again, unchanged, next cycle. */
  lemma RevalidationIsIdentity(f: Record)
    requires Valid(f)
    ensures ValidateCheckData(JObj(f)) == Some(f)
  {
    ValidIsAcceptable(f);
    ValidatedFromValid(f, ValidateCheckData(JObj(f)).value);
  }

  /** Whatever `state` and `lastChecked` hold, they never decide whether a
      record is probed. */
  lemma DefaultsNeverReject(raw: Record, state: Json, lastChecked: Json)
    ensures ValidateCheckData(JObj(raw["state" := state]["lastChecked" := lastChecked])).Some?
            <==> ValidateCheckData(JObj(raw)).Some?
  {
    AcceptableOnRequired(raw, raw["state" := state]["lastChecked" := lastChecked]);
  }

  /** `Acceptable` looks at neither `state` nor `lastChecked`. */
  lemma AcceptableOnRequired(a: Record, b: Record)
    requires forall k :: k in a && k != "state" && k != "lastChecked" ==> k in b && b[k] == a[k]
    requires forall k :: k in b && k != "state" && k != "lastChecked" ==> k in a
    ensures Acceptable(JObj(a)) <==> Acceptable(JObj(b))
  {
    assert JObj(a).fields == a && JObj(b).fields == b;
  }

  // ---------------------------------------------------------------------
  // Probe outcomes and the decisions made on them (processCheckOutcome)

  /** `checkOutcome`: `error` is `false` or the error value, `responseCode`
      is `false` or the status. */
  datatype Outcome = Outcome(error: Option<Json>, responseCode: Option<int>)

  const NoOutcome := Outcome(None, None)

  function OutcomeJson(o: Outcome): Json
  {
    JObj(map[
      "error" := (if o.error.Some? then JObj(map["error" := JBool(true), "value" := o.error.value]) else JBool(false)),
      "responseCode" := (if o.responseCode.Some? then JNum(o.responseCode.value as real) else JBool(false))])
  }

  /** The new state: "up" exactly when the probe had no error and answered
      with a (non-zero) status listed among the success codes. */
  function DeriveState(successCodes: seq<Json>, o: Outcome): (s: string)
    ensures s in States
    ensures s == "up" <==>
      o.error.None? && o.responseCode.Some? && o.responseCode.value != 0
      && JNum(o.responseCode.value as real) in successCodes
  {
    var errorTruthy := o.error.Some?;
    var codeTruthy := o.responseCode.Some? && o.responseCode.value != 0;
    if !errorTruthy && codeTruthy && IndexOfElem(successCodes, JNum(o.responseCode.value as real)) > -1
    then "up" else "down"
  }

  /** An alert is warranted exactly when the check has been probed before
      and its state flips. */
  predicate AlertWarranted(f: Record, state: string)
    requires Valid(f)
    ensures AlertWarranted(f, state) <==> f["lastChecked"].JNum? && f["state"].s != state
  {
    Truthy(Get(JObj(f), "lastChecked")) && f["state"] != JStr(state)
  }

  /** The log entry: the check as it was BEFORE this probe's update. */
  function LogEntry(f: Record, o: Outcome, state: string, alert: bool, time: nat): Json
  {
    JObj(map[
      "check" := JObj(f),
      "outcome" := OutcomeJson(o),
      "state" := JStr(state),
      "alert" := JBool(alert),
      "time" := JNum(time as real)])
  }

  /** The record as saved after a probe: the new state and the time of the
      check, everything else as it was. */
  function Touched(f: Record, state: string, time: nat): Record
  {
    f["state" := JStr(state)]["lastChecked" := JNum(time as real)]
  }

  /** A probed record is still a valid one. */
  lemma TouchedStaysValid(f: Record, o: Outcome, time: nat)
    requires Valid(f) && time > 0
    ensures Valid(Touched(f, DeriveState(f["successCodes"].items, o), time))
  {
  }

  datatype Alert = Alert(phone: string, message: string)

  /** The SMS text, built from the UPDATED record, so it names the new
      state. */
  function AlertMessage(g: Record): string
    requires Describable(g)
  {
    "Alert: Your check for " + Upper(g["method"].s) + " " + g["protocol"].s + "://"
    + g["url"].s + " is currently " + g["state"].s
  }

  // ---------------------------------------------------------------------
  // The request a probe makes (performCheck, lines 114-123)

  datatype Transport = HttpModule | HttpsModule

  datatype RequestDetails = RequestDetails(protocol: string, httpMethod: string, timeoutMs: int, transport: Transport)

  function RequestFor(f: Record): RequestDetails
    requires Valid(f)
  {
    RequestDetails(
      f["protocol"].s + ":",
      Upper(f["method"].s),
      f["timeoutSeconds"].n.Floor * 1000,
      if f["protocol"].s == "http" then HttpModule else HttpsModule)
  }

  /** The request names its scheme with a colon, an upper-case method, a
      timeout of one to five whole seconds in milliseconds, and the module of
      its scheme. */
  lemma RequestDetailsShape(f: Record)
    requires Valid(f)
    ensures RequestFor(f).protocol == "http:" <==> f["protocol"] == JStr("http")
    ensures RequestFor(f).protocol == "https:" <==> f["protocol"] == JStr("https")
    ensures RequestFor(f).httpMethod in ["GET", "PUT", "POST", "DELETE"]
    ensures Lower(RequestFor(f).httpMethod) == f["method"].s
    ensures RequestFor(f).timeoutMs as real == f["timeoutSeconds"].n * 1000.0
    ensures 1000 <= RequestFor(f).timeoutMs <= 5000 && RequestFor(f).timeoutMs % 1000 == 0
    ensures RequestFor(f).transport == HttpModule <==> f["protocol"] == JStr("http")
  {
    var n := f["timeoutSeconds"].n;
    assert RequestFor(f).timeoutMs == n.Floor * 1000;
    TimeoutMillis(n);
    SchemeNames(f["protocol"].s);
    MethodNames(f["method"].s);
  }

  lemma SchemeNames(p: string)
    requires p in Protocols
    ensures p + ":" == "http:" <==> p == "http"
    ensures p + ":" == "https:" <==> p == "https"
  {
    assert "https:"[4] != "http:"[4];
  }

  lemma TimeoutMillis(n: real)
    requires IsIntegral(n) && 1.0 <= n <= 5.0
    ensures (n.Floor * 1000) as real == n * 1000.0
    ensures 1000 <= n.Floor * 1000 <= 5000 && (n.Floor * 1000) % 1000 == 0
  {
  }

  /** The four accepted methods, upper-cased as the request sends them. */
  lemma MethodNames(m: string)
    requires m in CheckMethods
    ensures Upper(m) in ["GET", "PUT", "POST", "DELETE"] && Lower(Upper(m)) == m
  {
    CheckMethodCases(m);
    MethodSpellings(m);
  }

  lemma CheckMethodCases(m: string)
    requires m in CheckMethods
    ensures m == "get" || m == "put" || m == "post" || m == "delete"
  {
  }

  lemma MethodSpellings(m: string)
    requires m == "get" || m == "put" || m == "post" || m == "delete"
    ensures Upper(m) in ["GET", "PUT", "POST", "DELETE"] && Lower(Upper(m)) == m
  {
    if m == "get" {
      UpperGet();
    } else if m == "put" {
      UpperPut();
    } else if m == "post" {
      UpperPost();
    } else {
      UpperDelete();
    }
  }

  lemma UpperGet()
    ensures Upper("get") == "GET" && Lower("GET") == "get"
  {
    UpperLiteral("get", "GET");
    LowerLiteral("GET", "get");
  }

  lemma UpperPut()
    ensures Upper("put") == "PUT" && Lower("PUT") == "put"
  {
    UpperLiteral("put", "PUT");
    LowerLiteral("PUT", "put");
  }

  lemma UpperPost()
    ensures Upper("post") == "POST" && Lower("POST") == "post"
  {
    UpperLiteral("post", "POST");
    LowerLiteral("POST", "post");
  }

  lemma UpperDelete()
    ensures Upper("delete") == "DELETE" && Lower("DELETE") == "delete"
  {
    UpperLiteral("delete", "DELETE");
    LowerLiteral("DELETE", "delete");
  }

  // ---------------------------------------------------------------------
  // The outcome guard: one probe's events, as a state machine

  /** What the request emits: a response, a transport error, a timeout. A
      timeout can follow a response, because the response body is never
      read and the socket stays open. */
  datatype ProbeEvent = Response(status: int) | TransportError(e: Json) | TimedOut

  /** Each listener records its event on the one shared outcome. */
  function Recorded(o: Outcome, ev: ProbeEvent): Outcome
  {
    match ev
    case Response(status) => o.(responseCode := Some(status))
    case TransportError(e) => o.(error := Some(e))
    case TimedOut => o.(error := Some(JStr("timeout")))
  }

  /** The guard as intended: every listener records its event, and the first
      one to run hands the outcome on and sets the flag. */
  datatype Probe = Probe(outcome: Outcome, sent: bool, delivered: seq<Outcome>)

  function Step(p: Probe, ev: ProbeEvent): Probe
  {
    var o := Recorded(p.outcome, ev);
    if p.sent then Probe(o, true, p.delivered) else Probe(o, true, p.delivered + [o])
  }

  function Run(events: seq<ProbeEvent>): Probe
  {
    if events == [] then Probe(NoOutcome, false, [])
    else Step(Run(events[..|events| - 1]), events[|events| - 1])
  }

  /** With the guard set on every path, a probe hands on at most one outcome,
      and exactly one once any event has happened: that of the first event. */
  lemma {:induction false} DeliversAtMostOnce(events: seq<ProbeEvent>)
    ensures Run(events).sent <==> events != []
    ensures |Run(events).delivered| == (if events == [] then 0 else 1)
    ensures events != [] ==> Run(events).delivered[0] == Recorded(NoOutcome, events[0])
  {
    if events != [] {
      var init := events[..|events| - 1];
      DeliversAtMostOnce(init);
      if init != [] {
        assert init[0] == events[0];
      }
    }
  }

  /** The guard as written: `outcomeSent` is a `const`, so it stays false;
      the response listener does not even try to set it, and the assignments
      in the error and timeout listeners throw a TypeError right after they
      have handed the outcome on. The uncaught TypeError ends the process, so
      nothing after it runs. */
  datatype ProbeAsWritten = ProbeAsWritten(outcome: Outcome, delivered: seq<Outcome>, thrown: bool)

  function StepAsWritten(p: ProbeAsWritten, ev: ProbeEvent): ProbeAsWritten
  {
    if p.thrown then p
    else
      var o := Recorded(p.outcome, ev);
      ProbeAsWritten(o, p.delivered + [o], !ev.Response?)
  }

  function RunAsWritten(events: seq<ProbeEvent>): ProbeAsWritten
  {
    if events == [] then ProbeAsWritten(NoOutcome, [], false)
    else StepAsWritten(RunAsWritten(events[..|events| - 1]), events[|events| - 1])
  }

  /** As written, a response followed by a timeout hands on two outcomes, the
      second carrying both the status and the timeout error. */
  lemma ResponseThenTimeoutDeliversTwice()
    ensures RunAsWritten([Response(200), TimedOut]).delivered
            == [Outcome(None, Some(200)), Outcome(Some(JStr("timeout")), Some(200))]
    ensures RunAsWritten([Response(200), TimedOut]).thrown
  {
    assert [Response(200), TimedOut][..1] == [Response(200)];
    assert [Response(200)][..0] == [];
  }

  /** The second outcome reaches the record the first call already updated
      (the two share one object). On a check's very first probe, the first
      call correctly finds no alert warranted; the second sees a
      `lastChecked` and a flip from "up" to "down", and finds one warranted.
      The throw that follows it ends the process before that call's save
      completes, so the alert is warranted but never sent. */
  lemma DoubleDeliveryAlertsOnFirstProbe(f: Record, t1: nat)
    requires Valid(f) && f["lastChecked"] == JBool(false) && JNum(200.0) in f["successCodes"].items
    requires t1 > 0
    ensures var codes := f["successCodes"].items;
      var s1 := DeriveState(codes, Outcome(None, Some(200)));
      var g := Touched(f, s1, t1);
      var s2 := DeriveState(codes, Outcome(Some(JStr("timeout")), Some(200)));
      && s1 == "up" && s2 == "down"
      && !AlertWarranted(f, s1)
      && Valid(g) && AlertWarranted(g, s2)
  {
  }

  /** As written, a probe whose first event is a transport error or a
      timeout hands on exactly that event's outcome and then throws, and
      nothing later is handed on: the process ends right after the first
      `processCheckOutcome` returns, before its log append and its save,
      which it only started, complete. */
  lemma {:induction false} ErrorFirstThrowsAfterOneDelivery(events: seq<ProbeEvent>)
    requires events != [] && !events[0].Response?
    ensures RunAsWritten(events).thrown
    ensures RunAsWritten(events).delivered == [Recorded(NoOutcome, events[0])]
  {
    if |events| > 1 {
      var init := events[..|events| - 1];
      assert init[0] == events[0];
      ErrorFirstThrowsAfterOneDelivery(init);
    } else {
      assert events[..0] == [];
    }
  }

  /** As written, responses alone never throw: each is handed on, so a
      probe answered by several responses processes each of them. */
  lemma {:induction false} ResponsesNeverThrow(events: seq<ProbeEvent>)
    requires forall i :: 0 <= i < |events| ==> events[i].Response?
    ensures !RunAsWritten(events).thrown
    ensures |RunAsWritten(events).delivered| == |events|
  {
    if events != [] {
      var init := events[..|events| - 1];
      assert forall i :: 0 <= i < |init| ==> init[i] == events[i];
      ResponsesNeverThrow(init);
    }
  }

  // ---------------------------------------------------------------------
  // The effect of one processed outcome on the world

  datatype World = World(files: Files, records: Records, alerts: seq<Alert>)

  /** `processCheckOutcome`: log the entry built from the record as it was,
      save the touched record under its id, and alert the owner only if the
      save succeeded and an alert was warranted. */
  function Processed(w: World, f: Record, o: Outcome, time: nat, faults: Faults,
                     stringify: Json -> string): World
    requires Valid(f)
  {
    var state := DeriveState(f["successCodes"].items, o);
    var alert := AlertWarranted(f, state);
    var files := Appended(w.files, f["id"].s, stringify(LogEntry(f, o, state, alert, time)));
    var g := Touched(f, state, time);
    var saved := Updated(w.records, faults, (Checks, f["id"].s), JObj(g));
    World(files, saved.records,
          if !saved.err && alert then w.alerts + [Alert(g["userPhone"].s, AlertMessage(g))] else w.alerts)
  }

  /** The log entry does not depend on whether the save succeeds: it is
      written in every case, and it holds the record as it was before. */
  lemma LogIndependentOfSave(w: World, f: Record, o: Outcome, time: nat,
                             faults1: Faults, faults2: Faults, stringify: Json -> string)
    requires Valid(f)
    ensures Processed(w, f, o, time, faults1, stringify).files == Processed(w, f, o, time, faults2, stringify).files
    ensures var state := DeriveState(f["successCodes"].items, o);
      var entry := LogEntry(f, o, state, AlertWarranted(f, state), time);
      && Get(entry, "check") == Some(JObj(f))
      && Processed(w, f, o, time, faults1, stringify).files[f["id"].s + LogExt]
         == (if f["id"].s + LogExt in w.files then w.files[f["id"].s + LogExt] else "") + stringify(entry) + "\n"
  {
  }

  /** The save replaces the record under the check's id with the new state
      and time, or leaves every record as it was when it fails. */
  lemma SaveTouchesOnlyTheCheck(w: World, f: Record, o: Outcome, time: nat, faults: Faults,
                                stringify: Json -> string)
    requires Valid(f)
    ensures var key := (Checks, f["id"].s);
      var r := Processed(w, f, o, time, faults, stringify);
      && (key in w.records && key !in faults.unwritable ==>
            r.records == w.records[key := JObj(Touched(f, DeriveState(f["successCodes"].items, o), time))])
      && (key !in w.records || key in faults.unwritable ==> r.records == w.records)
  {
  }

  /** At most one alert is added; one is added exactly when the save
      succeeded and the alert was warranted, and it goes to the check's
      owner naming the new state. */
  lemma AlertOnlyAfterSave(w: World, f: Record, o: Outcome, time: nat, faults: Faults,
                           stringify: Json -> string)
    requires Valid(f)
    ensures var r := Processed(w, f, o, time, faults, stringify);
      var state := DeriveState(f["successCodes"].items, o);
      var saved := (Checks, f["id"].s) in w.records && (Checks, f["id"].s) !in faults.unwritable;
      && r.alerts[..|w.alerts|] == w.alerts
      && |r.alerts| == |w.alerts| + (if saved && AlertWarranted(f, state) then 1 else 0)
      && (|r.alerts| > |w.alerts| ==>
            r.alerts[|w.alerts|] == Alert(f["userPhone"].s,
              "Alert: Your check for " + Upper(f["method"].s) + " " + f["protocol"].s + "://"
              + f["url"].s + " is currently " + state))
  {
    var state := DeriveState(f["successCodes"].items, o);
    var g := Touched(f, state, time);
    assert g["method"] == f["method"] && g["protocol"] == f["protocol"] && g["url"] == f["url"];
    assert g["userPhone"] == f["userPhone"] && g["state"] == JStr(state);
  }

  /** A check that has never been probed raises no alert, whatever the
      outcome. */
  lemma FirstProbeNeverAlerts(w: World, f: Record, o: Outcome, time: nat, faults: Faults,
                              stringify: Json -> string)
    requires Valid(f) && f["lastChecked"] == JBool(false)
    ensures Processed(w, f, o, time, faults, stringify).alerts == w.alerts
  {
  }

  /** The outcome of a probe as the guard hands it on: nothing for no event,
      otherwise the first event's outcome. */
  function Probed(w: World, f: Record, events: seq<ProbeEvent>, time: nat, faults: Faults,
                  stringify: Json -> string): World
    requires Valid(f)
  {
    if events == [] then w else Processed(w, f, Recorded(NoOutcome, events[0]), time, faults, stringify)
  }

  /** One record of a gathering cycle: skipped when it cannot be read, is
      falsy, or fails validation; otherwise probed. */
  function Gathered(w: World, id: string, events: seq<ProbeEvent>, time: nat, faults: Faults,
                    stringify: Json -> string): World
  {
    var raw := Fetched(w.records, faults, (Checks, id));
    if raw.Some? && Truthy(raw) then
      match ValidateCheckData(raw.value)
      case None => w
      case Some(f) => Probed(w, f, events, time, faults, stringify)
    else w
  }

  /** A gathering cycle over the listed ids, in order; the i-th check sees
      the events `probes(i)` and the time `clock(i)`. */
  function GatheredAll(w: World, ids: seq<string>, probes: nat -> seq<ProbeEvent>, clock: nat -> nat,
                       faults: Faults, stringify: Json -> string): World
  {
    if ids == [] then w
    else
      var n := |ids| - 1;
      Gathered(GatheredAll(w, ids[..n], probes, clock, faults, stringify), ids[n], probes(n), clock(n), faults, stringify)
  }

  /** A record that cannot be read, is falsy, or is not acceptable is skipped
      without any effect. */
  lemma SkippedRecordsChangeNothing(w: World, id: string, events: seq<ProbeEvent>, time: nat,
                                    faults: Faults, stringify: Json -> string)
    requires || (Checks, id) !in w.records || (Checks, id) in faults.unreadable
             || !Truthy(Some(w.records[(Checks, id)])) || !Acceptable(w.records[(Checks, id)])
    ensures Gathered(w, id, events, time, faults, stringify) == w
  {
  }

  /** A probed check whose state flips after an earlier probe, and whose
      record can be saved, alerts exactly once. */
  lemma FlipAlertsOnce(w: World, f: Record, events: seq<ProbeEvent>, time: nat, faults: Faults,
                       stringify: Json -> string)
    requires Valid(f) && events != []
    requires f["lastChecked"].JNum?
    requires f["state"].s != DeriveState(f["successCodes"].items, Recorded(NoOutcome, events[0]))
    requires (Checks, f["id"].s) in w.records && (Checks, f["id"].s) !in faults.unwritable
    ensures |Probed(w, f, events, time, faults, stringify).alerts| == |w.alerts| + 1
  {
    AlertOnlyAfterSave(w, f, Recorded(NoOutcome, events[0]), time, faults, stringify);
  }

  // ---------------------------------------------------------------------
  // Log rotation (rotateLogs)

  /** The archive a listed log is compressed into: the name with its first
      ".log" removed, a dash, and the time. */
  function ArchiveId(logName: string, now: nat): string
  {
    RemoveFirst(logName, LogExt) + "-" + Decimal(now)
  }

  /** One log: compress it, and truncate it only if compressing reported no
      error. */
  function RotatedOne(files: Files, logName: string, now: nat, encode: string -> string): Files
  {
    var logId := RemoveFirst(logName, LogExt);
    var c := Compressed(files, logId, ArchiveId(logName, now), encode);
    if c.err then c.files else Truncated(c.files, logId).files
  }

  function Rotated(files: Files, names: seq<string>, clock: nat -> nat, encode: string -> string): Files
  {
    if names == [] then files
    else
      var n := |names| - 1;
      RotatedOne(Rotated(files, names[..n], clock, encode), names[n], clock(n), encode)
  }

  /** Rotation never loses a line: it changes no file but the log itself,
      and empties a non-empty log only once an archive holding its text has
      been written. */
  lemma RotationKeepsContent(files: Files, logName: string, now: nat,
                             encode: string -> string, decode: string -> Option<string>)
    requires Codec(encode, decode)
    ensures var src := RemoveFirst(logName, LogExt) + LogExt;
      var r := RotatedOne(files, logName, now, encode);
      && (forall f :: f in files && f != src ==> f in r && r[f] == files[f])
      && (src in files && files[src] != "" && src in r && r[src] == "" ==>
            ArchiveId(logName, now) + ArchiveExt !in files
            && Decompressed(r, ArchiveId(logName, now), decode) == Text(files[src]))
  {
    var logId := RemoveFirst(logName, LogExt);
    var src := logId + LogExt;
    var dst := ArchiveId(logName, now);
    ExtensionsDiffer(logId, dst);
    var c := Compressed(files, logId, dst, encode);
    if src in files && files[src] != "" && dst + ArchiveExt !in files {
      DecompressInvertsCompress(files, logId, dst, encode, decode);
    }
  }

  /** A non-empty log with no archive of that name yet is rotated into
      exactly one new archive, and left empty. */
  lemma RotationArchivesAndEmpties(files: Files, logName: string, now: nat, encode: string -> string)
    requires RemoveFirst(logName, LogExt) + LogExt in files
    requires files[RemoveFirst(logName, LogExt) + LogExt] != ""
    requires ArchiveId(logName, now) + ArchiveExt !in files
    ensures var r := RotatedOne(files, logName, now, encode);
      && r.Keys == files.Keys + {ArchiveId(logName, now) + ArchiveExt}
      && r[RemoveFirst(logName, LogExt) + LogExt] == ""
      && r[ArchiveId(logName, now) + ArchiveExt] == encode(files[RemoveFirst(logName, LogExt) + LogExt])
  {
    ExtensionsDiffer(RemoveFirst(logName, LogExt), ArchiveId(logName, now));
  }

  /** For a log id without ".log" in it, the listed name is the id itself, so
      rotation reads `id.log` and archives it as `id-<now>`. */
  lemma RotationNamesForPlainIds(id: string, now: nat)
    requires !Contains(id, LogExt)
    ensures RemoveFirst(id + LogExt, LogExt) == id
    ensures RemoveFirst(id, LogExt) == id
    ensures ArchiveId(id, now) == id + "-" + Decimal(now)
  {
    FirstLogIsSuffix(id);
  }

  // ---------------------------------------------------------------------
  // The worker

  class Worker {
    const logs: Logs
    const db: Store
    const stringify: Json -> string
    var alerts: seq<Alert>

    ghost function Snapshot(): World
      reads this, logs, db
    {
      World(logs.files, db.records, alerts)
    }

    constructor (logs: Logs, db: Store, stringify: Json -> string)
      ensures this.logs == logs && this.db == db && this.stringify == stringify
      ensures alerts == []
    {
      this.logs := logs;
      this.db := db;
      this.stringify := stringify;
      alerts := [];
    }

    /** `log`: append the serialised entry to the check's log. */
    method Log(f: Record, o: Outcome, state: string, alert: bool, time: nat)
      requires "id" in f && f["id"].JStr?
      modifies logs
      ensures logs.files == Appended(old(logs.files), f["id"].s, stringify(LogEntry(f, o, state, alert, time)))
    {
      var logString := stringify(LogEntry(f, o, state, alert, time));
      logs.Append(f["id"].s, logString);
    }

    /** `alertUserToStatusChange`: hand the message to the SMS gateway. */
    method AlertUserToStatusChange(g: Record)
      requires Describable(g)
      modifies this
      ensures alerts == old(alerts) + [Alert(g["userPhone"].s, AlertMessage(g))]
    {
      var msg := "Alert: Your check for " + Upper(g["method"].s) + " " + g["protocol"].s + "://"
                 + g["url"].s + " is currently " + g["state"].s;
      alerts := alerts + [Alert(g["userPhone"].s, msg)];
    }

    method ProcessCheckOutcome(f: Record, o: Outcome, time: nat, faults: Faults)
      requires Valid(f)
      modifies this, logs, db
      ensures Snapshot() == Processed(old(Snapshot()), f, o, time, faults, stringify)
    {
      var state := DeriveState(f["successCodes"].items, o);
      var alertWarranted := AlertWarranted(f, state);
      Log(f, o, state, alertWarranted, time);
      var newCheckData := f;
      newCheckData := newCheckData["state" := JStr(state)];
      newCheckData := newCheckData["lastChecked" := JNum(time as real)];
      var err := db.Update((Checks, newCheckData["id"].s), JObj(newCheckData), faults);
      if !err && alertWarranted {
        AlertUserToStatusChange(newCheckData);
      }
    }

    /** `performCheck` with the guard set on every path: it builds the
        request details the probe is made with, then the first event's
        outcome is processed, every later event only recorded. */
    method PerformCheck(f: Record, events: seq<ProbeEvent>, time: nat, faults: Faults)
      returns (requestDetails: RequestDetails)
      requires Valid(f)
      modifies this, logs, db
      ensures requestDetails == RequestFor(f)
      ensures Snapshot() == Probed(old(Snapshot()), f, events, time, faults, stringify)
    {
      requestDetails := RequestDetails(
        f["protocol"].s + ":",
        Upper(f["method"].s),
        f["timeoutSeconds"].n.Floor * 1000,
        if f["protocol"].s == "http" then HttpModule else HttpsModule);
      var checkOutcome := NoOutcome;
      var outcomeSent := false;
      var i := 0;
      while i < |events|
        invariant 0 <= i <= |events|
        invariant outcomeSent <==> i > 0
        invariant i == 0 ==> checkOutcome == NoOutcome && Snapshot() == old(Snapshot())
        invariant i > 0 ==> Snapshot() == Processed(old(Snapshot()), f, Recorded(NoOutcome, events[0]), time, faults, stringify)
      {
        checkOutcome := Recorded(checkOutcome, events[i]);
        if !outcomeSent {
          ProcessCheckOutcome(f, checkOutcome, time, faults);
          outcomeSent := true;
        }
        i := i + 1;
      }
    }

    /** The body of the loop in `gatherAllChecks`, for one listed id: read
        the record, and probe it if it is truthy and validates. */
    method GatherOne(id: string, events: seq<ProbeEvent>, time: nat, faults: Faults)
      modifies this, logs, db
      ensures Snapshot() == Gathered(old(Snapshot()), id, events, time, faults, stringify)
    {
      var originalCheckData := db.Read((Checks, id), faults);
      if originalCheckData.Some? && Truthy(originalCheckData) {
        var validated := ValidateCheckData(originalCheckData.value);
        if validated.Some? {
          var requestDetails := PerformCheck(validated.value, events, time, faults);
        }
      }
    }

    /** `gatherAllChecks`: list the checks and, one record at a time, read,
        validate and probe each. A failed or empty listing does nothing. */
    method GatherAllChecks(listFails: bool, probes: nat -> seq<ProbeEvent>, clock: nat -> nat, faults: Faults)
      modifies this, logs, db
      ensures listFails ==> Snapshot() == old(Snapshot())
      ensures !listFails ==> exists ids ::
        Enumerates(ids, Ids(old(db.records), Checks))
        && Snapshot() == GatheredAll(old(Snapshot()), ids, probes, clock, faults, stringify)
    {
      var err, checks := db.List(Checks, listFails);
      if err || |checks| == 0 {
        return;
      }
      var i := 0;
      while i < |checks|
        invariant 0 <= i <= |checks|
        invariant Snapshot() == GatheredAll(old(Snapshot()), checks[..i], probes, clock, faults, stringify)
      {
        GatherOne(checks[i], probes(i), clock(i), faults);
        assert checks[..i + 1][..i] == checks[..i];
        i := i + 1;
      }
      assert checks[..|checks|] == checks;
    }

    /** One log of `rotateLogs`: compress it into `<id>-<now>`, then
        truncate it if that reported no error. */
    method RotateOne(logName: string, now: nat)
      modifies logs
      ensures logs.files == RotatedOne(old(logs.files), logName, now, logs.encode)
    {
      var logId := RemoveFirst(logName, LogExt);
      var newFileId := logId + "-" + Decimal(now);
      var compressErr := logs.Compress(logId, newFileId);
      if !compressErr {
        var truncateErr := logs.Truncate(logId);
      }
    }

    /** `rotateLogs`: list the uncompressed logs and, one at a time, compress
        each into `<id>-<now>` and truncate it only if that succeeded. */
    method RotateLogs(listFails: bool, clock: nat -> nat)
      modifies logs
      ensures listFails ==> logs.files == old(logs.files)
      ensures !listFails ==> exists entries ::
        Enumerates(entries, old(logs.files).Keys)
        && logs.files == Rotated(old(logs.files), Listed(entries, false), clock, logs.encode)
    {
      var err, names := logs.List(false, listFails);
      if err {
        return;
      }
      ghost var entries: seq<string> :| Enumerates(entries, logs.files.Keys) && names == Listed(entries, false);
      if |names| == 0 {
        return;
      }
      var i := 0;
      while i < |names|
        invariant 0 <= i <= |names|
        invariant logs.files == Rotated(old(logs.files), names[..i], clock, logs.encode)
      {
        RotateOne(names[i], clock(i));
        assert names[..i + 1][..i] == names[..i];
        i := i + 1;
      }
      assert names[..|names|] == names;
    }
  }
}
