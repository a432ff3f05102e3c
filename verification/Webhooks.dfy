/** What becomes of a webhook: the parser's event, the gateway's cheap classification of the same payload, and the
    router that hands a validation status to its worker. */
module Webhooks {
  import opened J = Json
  import Branches
  import Lifecycle

  // ---- The parser ----

  datatype Event =
    | BugReported(projectId: Json, projectWebUrl: Json, jobId: Json, sourceBranch: string)
    | ValidationStatus(bugId: string, status: Json)
    | Other

  datatype Parsed = Parsed(event: Event) | Raised

  const AUTO := "auto/"

  function Lookup(j: Json, key: string): Option<Json> {
    if j.Obj? then Get(j.members, key) else None
  }

  function OrEmpty(o: Option<Json>): Json { if o.Some? then o.value else Str("") }

  predicate Is(o: Option<Json>, s: string) { o == Some(Str(s)) }

  /** payload.get("project", {}): an object, or nothing. */
  predicate ProjectOk(payload: Json) {
    var p := Lookup(payload, "project");
    p.None? || p.value.Obj?
  }

  /** payload.get("builds", [{}])[0]: a list starting with an object, or nothing. */
  predicate BuildsOk(payload: Json) {
    var b := Lookup(payload, "builds");
    b.None? || (b.value.Arr? && b.value.items != [] && b.value.items[0].Obj?)
  }

  function ProjectField(payload: Json, key: string): Json {
    var p := Lookup(payload, "project");
    if p.Some? then OrEmpty(Lookup(p.value, key)) else Str("")
  }

  function JobId(payload: Json): Json
    requires BuildsOk(payload)
  {
    var b := Lookup(payload, "builds");
    if b.Some? then OrEmpty(Lookup(b.value.items[0], "id")) else Str("")
  }

  function ParseMessage(payload: Json): Parsed {
    var attrs := Lookup(payload, "object_attributes");
    if attrs.None? then Raised
    else
      var ref, status := Lookup(attrs.value, "ref"), Lookup(attrs.value, "status");
      if ref.None? || status.None? || !ref.value.Str? then Raised
      else
        var branch := ref.value.s;
        var fix := Branches.ParseBranch(branch);
        if fix.Some? then Parsed(ValidationStatus(fix.value, status.value))
        else if AUTO <= branch then Parsed(Other)
        else if Lookup(payload, "object_kind").None? then Raised
        else if !(Is(Lookup(payload, "object_kind"), "pipeline") && status.value == Str("failed")) then Parsed(Other)
        else if !ProjectOk(payload) || !BuildsOk(payload) then Raised
        else Parsed(BugReported(ProjectField(payload, "id"), ProjectField(payload, "web_url"), JobId(payload), branch))
  }

  // ---- The gateway's classifier ----

  datatype Label = Invalid | Validation | BugReport | OtherLabel | Crashed

  /** Python truth of a JSON value. */
  predicate Truthy(j: Json) {
    match j
    case Null => false
    case Bool(b) => b
    case Int(n) => n != 0
    case Float(repr) => repr != "0.0" && repr != "-0.0"
    case Str(s) => s != ""
    case Arr(items) => items != []
    case Obj(members) => members != []
  }

  function ClassifyWebhook(payload: Json): Label {
    var attrs := Lookup(payload, "object_attributes");
    if attrs.None? then Invalid
    else if Truthy(attrs.value) && !attrs.value.Obj? then Crashed
    else
      var ref, status := OrEmpty(Lookup(attrs.value, "ref")), OrEmpty(Lookup(attrs.value, "status"));
      if ref.Str? && AUTO <= ref.s then Validation
      else if Is(Lookup(payload, "object_kind"), "pipeline") && status == Str("failed") then BugReport
      else OtherLabel
  }

  /** The classifier crashes exactly on attributes that are true, a number other than zero, or a string or a list that
      is not empty; without attributes the payload is invalid, and empty ones of any kind count as an object without
      members. */
  lemma CrashesExactly(payload: Json)
    ensures var attrs := Lookup(payload, "object_attributes");
      && (ClassifyWebhook(payload).Invalid? <==> attrs.None?)
      && ClassifyWebhook(payload).Crashed? ==
           match attrs
           case Some(Bool(b)) => b == true
           case Some(Int(n)) => n < 0 || n > 0
           case Some(Float(repr)) => repr !in {"0.0", "-0.0"}
           case Some(Str(s)) => |s| > 0
           case Some(Arr(items)) => |items| > 0
           case _ => false
  {
  }

  /** The parts of a payload the parser reads and the classifier does not insist on. */
  predicate Complete(payload: Json) {
    var attrs := Lookup(payload, "object_attributes");
    && attrs.Some?
    && (var ref := Lookup(attrs.value, "ref"); ref.Some? && ref.value.Str?)
    && ProjectOk(payload) && BuildsOk(payload)
  }

  /** The classifier's bug_reported against the parser's BugReportedEvent, for every payload: the parser builds one
      exactly when the classifier says so and the payload has a string ref, and a project and builds of the expected
      form if any. */
  lemma BugReportsAgree(payload: Json)
    ensures var p := ParseMessage(payload);
            p.Parsed? && p.event.BugReported? <==> ClassifyWebhook(payload).BugReport? && Complete(payload)
  {
    hide Branches.ParseBranch, Get;
    var attrs := Lookup(payload, "object_attributes");
    if attrs.Some? {
      var ref := Lookup(attrs.value, "ref");
      if ref.Some? && ref.value.Str? && Branches.ParseBranch(ref.value.s).Some? { FixRefIsAuto(ref.value.s); }
    }
  }

  predicate Has(j: Json, key: string, value: Json) { Lookup(j, key) == Some(value) }

  /** A failed pipeline on an ordinary branch is reported with its project's id and address, the id of its first build
      and its ref. */
  lemma BugReportCarries(payload: Json, attrs: Json, ref: string, project: Json, id: Json, url: Json,
                         build: Json, others: seq<Json>, job: Json)
    requires Has(payload, "object_attributes", attrs) && Has(payload, "object_kind", Str("pipeline"))
    requires Has(attrs, "ref", Str(ref)) && Has(attrs, "status", Str("failed")) && !(AUTO <= ref)
    requires Has(payload, "project", project) && Has(project, "id", id) && Has(project, "web_url", url)
    requires Has(payload, "builds", Arr([build] + others)) && Has(build, "id", job)
    ensures ParseMessage(payload) == Parsed(BugReported(id, url, job, ref))
  {
    hide Branches.ParseBranch, Get;
    if Branches.ParseBranch(ref).Some? { FixRefIsAuto(ref); }
  }

  /** A validation event, or an unknown auto/ ref, is counted as validation. */
  lemma ValidationsAgree(payload: Json)
    requires var p := ParseMessage(payload); p.Parsed? && p.event.ValidationStatus?
    ensures ClassifyWebhook(payload).Validation?
  {
    FixRefIsAuto(Lookup(Lookup(payload, "object_attributes").value, "ref").value.s);
  }

  /** Every fix-branch shape lies under auto/. */
  lemma FixRefIsAuto(ref: string)
    requires Branches.ParseBranch(ref).Some?
    ensures AUTO <= ref
  {
  }

  /** No self-triggering: whatever else the payload says, a ref under auto/ never makes a bug report. */
  lemma NoSelfTrigger(payload: Json, ref: string)
    requires var attrs := Lookup(payload, "object_attributes"); attrs.Some? && Is(Lookup(attrs.value, "ref"), ref)
    requires AUTO <= ref
    ensures var p := ParseMessage(payload); p.Parsed? ==> !p.event.BugReported?
    ensures !ClassifyWebhook(payload).BugReport?
  {
  }

  /** The pipeline of a worker's own fix branch comes back as the validation status of its bug. */
  lemma FixBranchComesBack(payload: Json, bugId: string, commit: string, status: Json)
    requires Branches.IsBugId(bugId) && |commit| >= 8 && Branches.Matches(Branches.COMMIT, commit[..8])
    requires var attrs := Lookup(payload, "object_attributes");
             && attrs.Some? && Is(Lookup(attrs.value, "ref"), Branches.FixBranch(bugId, commit))
             && Lookup(attrs.value, "status") == Some(status)
    ensures ParseMessage(payload) == Parsed(ValidationStatus(bugId, status))
  {
    Branches.ParsePrinted(bugId, commit);
  }

  // ---- The router ----

  const INBOX_HEAD := "worker:"
  const INBOX_TAIL := ":stream"

  function InboxStream(bugId: string): string { INBOX_HEAD + bugId + INBOX_TAIL }

  lemma InboxesDiffer(a: string, b: string)
    ensures InboxStream(a) == InboxStream(b) <==> a == b
  {
    if InboxStream(a) == InboxStream(b) {
      assert InboxStream(a)[7..7 + |a|] == a && InboxStream(b)[7..7 + |b|] == b;
    }
  }

  class MessageRouter {
    const registry: Lifecycle.Registry
    /** task:owner:{bug_id}, which a daemon sets. */
    var owners: map<string, string>
    var streams: map<string, seq<Json>>

    constructor (registry: Lifecycle.Registry)
      ensures this.registry == registry && owners == map[] && streams == map[]
    {
      this.registry := registry;
      owners, streams := map[], map[];
    }

    function Inbox(bugId: string): seq<Json>
      reads this
    {
      if InboxStream(bugId) in streams then streams[InboxStream(bugId)] else []
    }

    /** The payload goes to the inbox of the event's bug when a worker or a daemon has it, and nowhere otherwise; no
        other bug's inbox changes. */
    method Route(bugId: string, raw: Json) returns (routed: bool)
      modifies this`streams
      ensures routed <==>
                (bugId in registry.workers
                 && (registry.workers[bugId].status.Warmup? || registry.workers[bugId].status.Running?))
                || (bugId in owners && owners[bugId] != "")
      ensures Inbox(bugId) == old(Inbox(bugId)) + if routed then [raw] else []
      ensures forall b | b != bugId :: Inbox(b) == old(Inbox(b))
    {
      forall b | b != bugId ensures InboxStream(b) != InboxStream(bugId) { InboxesDiffer(b, bugId); }
      var stream := InboxStream(bugId);
      if bugId in registry.workers && Lifecycle.IsActive(registry.workers[bugId]) {
        streams := streams[stream := Inbox(bugId) + [raw]];
        return true;
      }
      if bugId in owners && owners[bugId] != "" {
        streams := streams[stream := Inbox(bugId) + [raw]];
        return true;
      }
      return false;
    }
  }
}
