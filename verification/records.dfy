/** The database and container names and the five record shapes of the
    dashboard (src/config/cosmosConfig.ts), with their document encoding. */
module Records {
  import opened Options
  import opened Json

  const DatabaseId: string := "XigusaGrowthOS"

  /** The five logical record kinds, one container each. */
  datatype Kind = ContentKind | TechnicalKind | OutreachKind | MetricsKind | MomentumKind

  /** The `containers` table. */
  function ContainerName(k: Kind): string {
    match k
    case ContentKind => "ContentMachine"
    case TechnicalKind => "TechnicalTracker"
    case OutreachKind => "OutreachPipeline"
    case MetricsKind => "GrowthMetrics"
    case MomentumKind => "MomentumLog"
  }

  /** The inverse lookup of the `containers` table. */
  function KindOfContainer(name: string): Option<Kind> {
    if name == "ContentMachine" then Some(ContentKind)
    else if name == "TechnicalTracker" then Some(TechnicalKind)
    else if name == "OutreachPipeline" then Some(OutreachKind)
    else if name == "GrowthMetrics" then Some(MetricsKind)
    else if name == "MomentumLog" then Some(MomentumKind)
    else None
  }

  /** The table and its inverse agree in both directions, so the five kinds
      have five distinct container names. */
  lemma ContainerNamesDistinct(k: Kind, k': Kind, name: string)
    ensures KindOfContainer(ContainerName(k)) == Some(k)
    ensures KindOfContainer(name) == Some(k) ==> ContainerName(k) == name
    ensures ContainerName(k) == ContainerName(k') ==> k == k'
  {
  }

  // ---------------------------------------------------------------- enums

  datatype ContentStatus = Idea | Drafting | Editing | Ready | Published | Promoted
  datatype TechnicalStatus = NotStarted | InProgress | Completed
  datatype ComponentType = LandingPage | LeadCapture | Schema | Infrastructure
  datatype OutreachStatus = Planned | Contacted | FollowUp | Success | Rejected

  const ContentStatuses: seq<ContentStatus> := [Idea, Drafting, Editing, Ready, Published, Promoted]
  const TechnicalStatuses: seq<TechnicalStatus> := [NotStarted, InProgress, Completed]
  const ComponentTypes: seq<ComponentType> := [LandingPage, LeadCapture, Schema, Infrastructure]
  const OutreachStatuses: seq<OutreachStatus> := [Planned, Contacted, FollowUp, Success, Rejected]

  function ContentStatusName(s: ContentStatus): string {
    match s
    case Idea => "Idea"
    case Drafting => "Drafting"
    case Editing => "Editing"
    case Ready => "Ready"
    case Published => "Published"
    case Promoted => "Promoted"
  }

  function ParseContentStatus(name: string): Option<ContentStatus> {
    if name == "Idea" then Some(Idea)
    else if name == "Drafting" then Some(Drafting)
    else if name == "Editing" then Some(Editing)
    else if name == "Ready" then Some(Ready)
    else if name == "Published" then Some(Published)
    else if name == "Promoted" then Some(Promoted)
    else None
  }

  function TechnicalStatusName(s: TechnicalStatus): string {
    match s
    case NotStarted => "Not Started"
    case InProgress => "In Progress"
    case Completed => "Completed"
  }

  function ParseTechnicalStatus(name: string): Option<TechnicalStatus> {
    if name == "Not Started" then Some(NotStarted)
    else if name == "In Progress" then Some(InProgress)
    else if name == "Completed" then Some(Completed)
    else None
  }

  function ComponentTypeName(c: ComponentType): string {
    match c
    case LandingPage => "Landing Page"
    case LeadCapture => "Lead Capture"
    case Schema => "Schema"
    case Infrastructure => "Infrastructure"
  }

  function ParseComponentType(name: string): Option<ComponentType> {
    if name == "Landing Page" then Some(LandingPage)
    else if name == "Lead Capture" then Some(LeadCapture)
    else if name == "Schema" then Some(Schema)
    else if name == "Infrastructure" then Some(Infrastructure)
    else None
  }

  function OutreachStatusName(s: OutreachStatus): string {
    match s
    case Planned => "Planned"
    case Contacted => "Contacted"
    case FollowUp => "Follow-up"
    case Success => "Success"
    case Rejected => "Rejected"
  }

  function ParseOutreachStatus(name: string): Option<OutreachStatus> {
    if name == "Planned" then Some(Planned)
    else if name == "Contacted" then Some(Contacted)
    else if name == "Follow-up" then Some(FollowUp)
    else if name == "Success" then Some(Success)
    else if name == "Rejected" then Some(Rejected)
    else None
  }

  /** Six content statuses; each name reads back as its status and only the
      six names parse. */
  lemma ContentStatusDomain(s: ContentStatus, name: string)
    ensures |ContentStatuses| == 6 && s in ContentStatuses
    ensures ParseContentStatus(ContentStatusName(s)) == Some(s)
    ensures ParseContentStatus(name) == Some(s) ==> ContentStatusName(s) == name
  {
    match s
    case Idea =>
    case Drafting =>
    case Editing =>
    case Ready =>
    case Published =>
    case Promoted =>
  }

  /** Three technical statuses, named and parsed in both directions. */
  lemma TechnicalStatusDomain(s: TechnicalStatus, name: string)
    ensures |TechnicalStatuses| == 3 && s in TechnicalStatuses
    ensures ParseTechnicalStatus(TechnicalStatusName(s)) == Some(s)
    ensures ParseTechnicalStatus(name) == Some(s) ==> TechnicalStatusName(s) == name
  {
    match s
    case NotStarted =>
    case InProgress =>
    case Completed =>
  }

  /** Four component types, named and parsed in both directions. */
  lemma ComponentTypeDomain(c: ComponentType, name: string)
    ensures |ComponentTypes| == 4 && c in ComponentTypes
    ensures ParseComponentType(ComponentTypeName(c)) == Some(c)
    ensures ParseComponentType(name) == Some(c) ==> ComponentTypeName(c) == name
  {
    match c
    case LandingPage =>
    case LeadCapture =>
    case Schema =>
    case Infrastructure =>
  }

  /** Five outreach statuses, named and parsed in both directions. */
  lemma OutreachStatusDomain(s: OutreachStatus, name: string)
    ensures |OutreachStatuses| == 5 && s in OutreachStatuses
    ensures ParseOutreachStatus(OutreachStatusName(s)) == Some(s)
    ensures ParseOutreachStatus(name) == Some(s) ==> OutreachStatusName(s) == name
  {
    match s
    case Planned =>
    case Contacted =>
    case FollowUp =>
    case Success =>
    case Rejected =>
  }

  // -------------------------------------------------------------- records

  datatype ContentItem = ContentItem(
    id: string,
    title: string,
    status: ContentStatus,
    publishDate: Option<string>,
    keywords: seq<string>,
    targetLandingPage: Option<string>,
    performanceScore: Option<real>,
    internalLinks: Option<seq<string>>,
    notes: Option<string>,
    createdAt: string,
    updatedAt: string)

  datatype TechnicalItem = TechnicalItem(
    id: string,
    name: string,
    status: TechnicalStatus,
    componentType: ComponentType,
    codeFile: Option<string>,
    notes: Option<string>,
    createdAt: string,
    updatedAt: string)

  datatype OutreachItem = OutreachItem(
    id: string,
    contactName: string,
    outlet: string,
    email: Option<string>,
    pitchAngle: Option<string>,
    status: OutreachStatus,
    backlinkAcquired: bool,
    notes: Option<string>,
    createdAt: string,
    updatedAt: string)

  datatype MetricsItem = MetricsItem(
    id: string,
    weekStart: string,
    organicVisits: real,
    leads: real,
    conversionRate: real,
    notes: Option<string>,
    insights: Option<string>,
    blockers: Option<string>,
    createdAt: string)

  datatype MomentumItem = MomentumItem(
    id: string,
    date: string,
    win: Option<string>,
    blocker: Option<string>,
    energyLevel: real,
    focusLevel: real,
    insight: Option<string>,
    createdAt: string)

  /** A record of any of the five kinds. */
  datatype Record =
    | Content(content: ContentItem)
    | Technical(technical: TechnicalItem)
    | Outreach(outreach: OutreachItem)
    | Metrics(metrics: MetricsItem)
    | Momentum(momentum: MomentumItem)
  {
    function Kind(): Kind {
      match this
      case Content(_) => ContentKind
      case Technical(_) => TechnicalKind
      case Outreach(_) => OutreachKind
      case Metrics(_) => MetricsKind
      case Momentum(_) => MomentumKind
    }
  }

  /** The kinds whose records are ever updated carry `updatedAt`; the
      append-only kinds carry only `createdAt`. */
  predicate HasUpdatedAt(k: Kind) {
    k == ContentKind || k == TechnicalKind || k == OutreachKind
  }

  // ------------------------------------------------------------- encoding

  function StrArr(xs: seq<string>): (j: Json)
    ensures j.JArr? && |j.items| == |xs|
    ensures forall i :: 0 <= i < |xs| ==> j.items[i] == JStr(xs[i])
  {
    JArr(seq(|xs|, i requires 0 <= i < |xs| => JStr(xs[i])))
  }

  /** Adds a field only when the optional value is present (an optional
      property left out of the object). */
  function Put(d: Doc, key: string, v: Option<Json>): Doc {
    if v.Some? then d[key := v.value] else d
  }

  function StrOpt(v: Option<string>): Option<Json> {
    if v.Some? then Some(JStr(v.value)) else None
  }

  function NumOpt(v: Option<real>): Option<Json> {
    if v.Some? then Some(JNum(v.value)) else None
  }

  function StrArrOpt(v: Option<seq<string>>): Option<Json> {
    if v.Some? then Some(StrArr(v.value)) else None
  }

  /** The always-present fields of a content record. */
  function ContentBase(c: ContentItem): Doc {
    map["id" := JStr(c.id), "title" := JStr(c.title),
        "status" := JStr(ContentStatusName(c.status)), "keywords" := StrArr(c.keywords),
        "createdAt" := JStr(c.createdAt), "updatedAt" := JStr(c.updatedAt)]
  }

  function ContentDoc(c: ContentItem): Doc {
    Put(Put(Put(Put(Put(ContentBase(c),
      "publishDate", StrOpt(c.publishDate)),
      "targetLandingPage", StrOpt(c.targetLandingPage)),
      "performanceScore", NumOpt(c.performanceScore)),
      "internalLinks", StrArrOpt(c.internalLinks)),
      "notes", StrOpt(c.notes))
  }

  function TechnicalBase(t: TechnicalItem): Doc {
    map["id" := JStr(t.id), "name" := JStr(t.name),
        "status" := JStr(TechnicalStatusName(t.status)),
        "componentType" := JStr(ComponentTypeName(t.componentType)),
        "createdAt" := JStr(t.createdAt), "updatedAt" := JStr(t.updatedAt)]
  }

  function TechnicalDoc(t: TechnicalItem): Doc {
    Put(Put(TechnicalBase(t),
      "codeFile", StrOpt(t.codeFile)),
      "notes", StrOpt(t.notes))
  }

  function OutreachBase(o: OutreachItem): Doc {
    map["id" := JStr(o.id), "contactName" := JStr(o.contactName), "outlet" := JStr(o.outlet),
        "status" := JStr(OutreachStatusName(o.status)), "backlinkAcquired" := JBool(o.backlinkAcquired),
        "createdAt" := JStr(o.createdAt), "updatedAt" := JStr(o.updatedAt)]
  }

  function OutreachDoc(o: OutreachItem): Doc {
    Put(Put(Put(OutreachBase(o),
      "email", StrOpt(o.email)),
      "pitchAngle", StrOpt(o.pitchAngle)),
      "notes", StrOpt(o.notes))
  }

  function MetricsBase(m: MetricsItem): Doc {
    map["id" := JStr(m.id), "weekStart" := JStr(m.weekStart),
        "organicVisits" := JNum(m.organicVisits), "leads" := JNum(m.leads),
        "conversionRate" := JNum(m.conversionRate), "createdAt" := JStr(m.createdAt)]
  }

  function MetricsDoc(m: MetricsItem): Doc {
    Put(Put(Put(MetricsBase(m),
      "notes", StrOpt(m.notes)),
      "insights", StrOpt(m.insights)),
      "blockers", StrOpt(m.blockers))
  }

  function MomentumBase(m: MomentumItem): Doc {
    map["id" := JStr(m.id), "date" := JStr(m.date),
        "energyLevel" := JNum(m.energyLevel), "focusLevel" := JNum(m.focusLevel),
        "createdAt" := JStr(m.createdAt)]
  }

  function MomentumDoc(m: MomentumItem): Doc {
    Put(Put(Put(MomentumBase(m),
      "win", StrOpt(m.win)),
      "blocker", StrOpt(m.blocker)),
      "insight", StrOpt(m.insight))
  }

  /** The JSON document a record is stored as. */
  function ToDoc(r: Record): Doc {
    match r
    case Content(c) => ContentDoc(c)
    case Technical(t) => TechnicalDoc(t)
    case Outreach(o) => OutreachDoc(o)
    case Metrics(m) => MetricsDoc(m)
    case Momentum(m) => MomentumDoc(m)
  }

  /** Every stored record carries `id` and `createdAt`; `updatedAt` is present
      exactly for the kinds that are updated. */
  lemma TimestampFields(r: Record)
    ensures "id" in ToDoc(r) && "createdAt" in ToDoc(r)
    ensures "updatedAt" in ToDoc(r) <==> HasUpdatedAt(r.Kind())
  {
  }

  // ------------------------------------------------------------- decoding

  function GetStr(d: Doc, key: string): (r: Option<string>)
    ensures r.Some? <==> key in d && d[key].JStr?
    ensures r.Some? ==> d[key] == JStr(r.value)
  {
    if key in d && d[key].JStr? then Some(d[key].s) else None
  }

  function GetNum(d: Doc, key: string): (r: Option<real>)
    ensures r.Some? <==> key in d && d[key].JNum?
    ensures r.Some? ==> d[key] == JNum(r.value)
  {
    if key in d && d[key].JNum? then Some(d[key].n) else None
  }

  function GetBool(d: Doc, key: string): (r: Option<bool>)
    ensures r.Some? <==> key in d && d[key].JBool?
    ensures r.Some? ==> d[key] == JBool(r.value)
  {
    if key in d && d[key].JBool? then Some(d[key].b) else None
  }

  /** The strings of a JSON array, if every element is a string. */
  function Strings(items: seq<Json>): (r: Option<seq<string>>)
    ensures r.Some? ==> StrArr(r.value) == JArr(items)
  {
    if |items| == 0 then Some([])
    else if !items[0].JStr? then None
    else
      match Strings(items[1..])
      case None => None
      case Some(rest) =>
        assert items == [items[0]] + items[1..];
        Some([items[0].s] + rest)
  }

  lemma {:induction false} StringsOfStrArr(xs: seq<string>)
    ensures Strings(StrArr(xs).items) == Some(xs)
  {
    if |xs| > 0 {
      StringsOfStrArr(xs[1..]);
      assert StrArr(xs).items[1..] == StrArr(xs[1..]).items;
      assert xs == [xs[0]] + xs[1..];
    }
  }

  function GetStrArr(d: Doc, key: string): (r: Option<seq<string>>)
    ensures r.Some? ==> key in d && d[key] == StrArr(r.value)
  {
    if key in d && d[key].JArr? then Strings(d[key].items) else None
  }

  /** Optional fields: absent is `Some(None)`, present with the right type is
      `Some(Some(v))`, present with another type is a decoding failure. */
  function GetOptStr(d: Doc, key: string): (r: Option<Option<string>>)
    ensures r.Some? ==> StrOpt(r.value) == if key in d then Some(d[key]) else None
  {
    if key !in d then Some(None)
    else if d[key].JStr? then Some(Some(d[key].s))
    else None
  }

  function GetOptNum(d: Doc, key: string): (r: Option<Option<real>>)
    ensures r.Some? ==> NumOpt(r.value) == if key in d then Some(d[key]) else None
  {
    if key !in d then Some(None)
    else if d[key].JNum? then Some(Some(d[key].n))
    else None
  }

  function GetOptStrArr(d: Doc, key: string): (r: Option<Option<seq<string>>>)
    ensures r.Some? ==> StrArrOpt(r.value) == if key in d then Some(d[key]) else None
  {
    if key !in d then Some(None)
    else if d[key].JArr? then
      match Strings(d[key].items)
      case None => None
      case Some(xs) => Some(Some(xs))
    else None
  }

  function ContentFromDoc(d: Doc): Option<ContentItem> {
    var id :- GetStr(d, "id");
    var title :- GetStr(d, "title");
    var statusName :- GetStr(d, "status");
    var status :- ParseContentStatus(statusName);
    var publishDate :- GetOptStr(d, "publishDate");
    var keywords :- GetStrArr(d, "keywords");
    var targetLandingPage :- GetOptStr(d, "targetLandingPage");
    var performanceScore :- GetOptNum(d, "performanceScore");
    var internalLinks :- GetOptStrArr(d, "internalLinks");
    var notes :- GetOptStr(d, "notes");
    var createdAt :- GetStr(d, "createdAt");
    var updatedAt :- GetStr(d, "updatedAt");
    Some(ContentItem(id, title, status, publishDate, keywords, targetLandingPage,
                     performanceScore, internalLinks, notes, createdAt, updatedAt))
  }

  function TechnicalFromDoc(d: Doc): Option<TechnicalItem> {
    var id :- GetStr(d, "id");
    var name :- GetStr(d, "name");
    var statusName :- GetStr(d, "status");
    var status :- ParseTechnicalStatus(statusName);
    var typeName :- GetStr(d, "componentType");
    var componentType :- ParseComponentType(typeName);
    var codeFile :- GetOptStr(d, "codeFile");
    var notes :- GetOptStr(d, "notes");
    var createdAt :- GetStr(d, "createdAt");
    var updatedAt :- GetStr(d, "updatedAt");
    Some(TechnicalItem(id, name, status, componentType, codeFile, notes, createdAt, updatedAt))
  }

  function OutreachFromDoc(d: Doc): Option<OutreachItem> {
    var id :- GetStr(d, "id");
    var contactName :- GetStr(d, "contactName");
    var outlet :- GetStr(d, "outlet");
    var email :- GetOptStr(d, "email");
    var pitchAngle :- GetOptStr(d, "pitchAngle");
    var statusName :- GetStr(d, "status");
    var status :- ParseOutreachStatus(statusName);
    var backlinkAcquired :- GetBool(d, "backlinkAcquired");
    var notes :- GetOptStr(d, "notes");
    var createdAt :- GetStr(d, "createdAt");
    var updatedAt :- GetStr(d, "updatedAt");
    Some(OutreachItem(id, contactName, outlet, email, pitchAngle, status,
                      backlinkAcquired, notes, createdAt, updatedAt))
  }

  function MetricsFromDoc(d: Doc): Option<MetricsItem> {
    var id :- GetStr(d, "id");
    var weekStart :- GetStr(d, "weekStart");
    var organicVisits :- GetNum(d, "organicVisits");
    var leads :- GetNum(d, "leads");
    var conversionRate :- GetNum(d, "conversionRate");
    var notes :- GetOptStr(d, "notes");
    var insights :- GetOptStr(d, "insights");
    var blockers :- GetOptStr(d, "blockers");
    var createdAt :- GetStr(d, "createdAt");
    Some(MetricsItem(id, weekStart, organicVisits, leads, conversionRate,
                     notes, insights, blockers, createdAt))
  }

  function MomentumFromDoc(d: Doc): Option<MomentumItem> {
    var id :- GetStr(d, "id");
    var date :- GetStr(d, "date");
    var win :- GetOptStr(d, "win");
    var blocker :- GetOptStr(d, "blocker");
    var energyLevel :- GetNum(d, "energyLevel");
    var focusLevel :- GetNum(d, "focusLevel");
    var insight :- GetOptStr(d, "insight");
    var createdAt :- GetStr(d, "createdAt");
    Some(MomentumItem(id, date, win, blocker, energyLevel, focusLevel, insight, createdAt))
  }

  /** Reads a document of the given kind back as a typed record; `None` when
      a required field is missing or a field has the wrong JSON type or an
      enumeration field holds an unknown name. */
  function FromDoc(k: Kind, d: Doc): Option<Record> {
    match k
    case ContentKind => var c :- ContentFromDoc(d); Some(Content(c))
    case TechnicalKind => var t :- TechnicalFromDoc(d); Some(Technical(t))
    case OutreachKind => var o :- OutreachFromDoc(d); Some(Outreach(o))
    case MetricsKind => var m :- MetricsFromDoc(d); Some(Metrics(m))
    case MomentumKind => var m :- MomentumFromDoc(d); Some(Momentum(m))
  }

  // ---------------------------------------------------- round-trip lemmas

  /** Every field of `a` is in `b` with the same value. */
  ghost predicate SubDoc(a: Doc, b: Doc) {
    forall k :: k in a ==> k in b && b[k] == a[k]
  }

  lemma PutSubDoc(base: Doc, key: string, v: Option<Json>, d: Doc)
    requires SubDoc(base, d)
    requires v == if key in d then Some(d[key]) else None
    ensures SubDoc(Put(base, key, v), d)
  {
  }

  lemma ContentRequiredFields(c: ContentItem)
    ensures "id" in ContentDoc(c) && ContentDoc(c)["id"] == JStr(c.id)
    ensures "title" in ContentDoc(c) && ContentDoc(c)["title"] == JStr(c.title)
    ensures "status" in ContentDoc(c) && ContentDoc(c)["status"] == JStr(ContentStatusName(c.status))
  {
  }

  lemma ContentTimestampFields(c: ContentItem)
    ensures "createdAt" in ContentDoc(c) && ContentDoc(c)["createdAt"] == JStr(c.createdAt)
    ensures "updatedAt" in ContentDoc(c) && ContentDoc(c)["updatedAt"] == JStr(c.updatedAt)
  {
  }

  lemma ContentArrayFields(c: ContentItem)
    ensures GetStrArr(ContentDoc(c), "keywords") == Some(c.keywords)
    ensures GetOptStrArr(ContentDoc(c), "internalLinks") == Some(c.internalLinks)
  {
    var d := ContentDoc(c);
    StringsOfStrArr(c.keywords);
    assert d["keywords"] == StrArr(c.keywords);
    if c.internalLinks.Some? {
      StringsOfStrArr(c.internalLinks.value);
      assert d["internalLinks"] == StrArr(c.internalLinks.value);
    }
  }

  lemma ContentOptionalFields(c: ContentItem)
    ensures GetOptStr(ContentDoc(c), "publishDate") == Some(c.publishDate)
    ensures GetOptStr(ContentDoc(c), "targetLandingPage") == Some(c.targetLandingPage)
    ensures GetOptNum(ContentDoc(c), "performanceScore") == Some(c.performanceScore)
    ensures GetOptStr(ContentDoc(c), "notes") == Some(c.notes)
  {
  }

  lemma ContentRoundTrip(c: ContentItem)
    ensures ContentFromDoc(ContentDoc(c)) == Some(c)
  {
    ContentRequiredFields(c);
    ContentTimestampFields(c);
    ContentArrayFields(c);
    ContentOptionalFields(c);
    ContentStatusDomain(c.status, "");
  }

  lemma ContentDecodeSound(d: Doc, c: ContentItem)
    requires ContentFromDoc(d) == Some(c)
    ensures SubDoc(ContentDoc(c), d)
  {
    ContentStatusDomain(c.status, d["status"].s);
    var required := ContentBase(c);
    assert SubDoc(required, d);
    var d1 := Put(required, "publishDate", StrOpt(c.publishDate));
    PutSubDoc(required, "publishDate", StrOpt(c.publishDate), d);
    var d2 := Put(d1, "targetLandingPage", StrOpt(c.targetLandingPage));
    PutSubDoc(d1, "targetLandingPage", StrOpt(c.targetLandingPage), d);
    var d3 := Put(d2, "performanceScore", NumOpt(c.performanceScore));
    PutSubDoc(d2, "performanceScore", NumOpt(c.performanceScore), d);
    var d4 := Put(d3, "internalLinks", StrArrOpt(c.internalLinks));
    PutSubDoc(d3, "internalLinks", StrArrOpt(c.internalLinks), d);
    PutSubDoc(d4, "notes", StrOpt(c.notes), d);
  }

  lemma TechnicalRequiredFields(t: TechnicalItem)
    ensures "id" in TechnicalDoc(t) && TechnicalDoc(t)["id"] == JStr(t.id)
    ensures "name" in TechnicalDoc(t) && TechnicalDoc(t)["name"] == JStr(t.name)
    ensures "status" in TechnicalDoc(t) && TechnicalDoc(t)["status"] == JStr(TechnicalStatusName(t.status))
  {
  }

  lemma TechnicalOtherFields(t: TechnicalItem)
    ensures "componentType" in TechnicalDoc(t) && TechnicalDoc(t)["componentType"] == JStr(ComponentTypeName(t.componentType))
    ensures "createdAt" in TechnicalDoc(t) && TechnicalDoc(t)["createdAt"] == JStr(t.createdAt)
    ensures "updatedAt" in TechnicalDoc(t) && TechnicalDoc(t)["updatedAt"] == JStr(t.updatedAt)
  {
  }

  lemma TechnicalOptionalFields(t: TechnicalItem)
    ensures GetOptStr(TechnicalDoc(t), "codeFile") == Some(t.codeFile)
    ensures GetOptStr(TechnicalDoc(t), "notes") == Some(t.notes)
  {
  }

  lemma TechnicalRoundTrip(t: TechnicalItem)
    ensures TechnicalFromDoc(TechnicalDoc(t)) == Some(t)
  {
    TechnicalRequiredFields(t);
    TechnicalOtherFields(t);
    TechnicalOptionalFields(t);
    TechnicalStatusDomain(t.status, "");
    ComponentTypeDomain(t.componentType, "");
  }

  lemma TechnicalDecodeSound(d: Doc, t: TechnicalItem)
    requires TechnicalFromDoc(d) == Some(t)
    ensures SubDoc(TechnicalDoc(t), d)
  {
    TechnicalStatusDomain(t.status, d["status"].s);
    ComponentTypeDomain(t.componentType, d["componentType"].s);
    var required := TechnicalBase(t);
    assert SubDoc(required, d);
    var d1 := Put(required, "codeFile", StrOpt(t.codeFile));
    PutSubDoc(required, "codeFile", StrOpt(t.codeFile), d);
    PutSubDoc(d1, "notes", StrOpt(t.notes), d);
  }

  lemma OutreachRequiredFields(o: OutreachItem)
    ensures "id" in OutreachDoc(o) && OutreachDoc(o)["id"] == JStr(o.id)
    ensures "contactName" in OutreachDoc(o) && OutreachDoc(o)["contactName"] == JStr(o.contactName)
    ensures "outlet" in OutreachDoc(o) && OutreachDoc(o)["outlet"] == JStr(o.outlet)
  {
  }

  lemma OutreachOtherFields(o: OutreachItem)
    ensures "status" in OutreachDoc(o) && OutreachDoc(o)["status"] == JStr(OutreachStatusName(o.status))
    ensures "backlinkAcquired" in OutreachDoc(o) && OutreachDoc(o)["backlinkAcquired"] == JBool(o.backlinkAcquired)
  {
  }

  lemma OutreachTimestampFields(o: OutreachItem)
    ensures "createdAt" in OutreachDoc(o) && OutreachDoc(o)["createdAt"] == JStr(o.createdAt)
    ensures "updatedAt" in OutreachDoc(o) && OutreachDoc(o)["updatedAt"] == JStr(o.updatedAt)
  {
  }

  lemma OutreachOptionalFields(o: OutreachItem)
    ensures GetOptStr(OutreachDoc(o), "email") == Some(o.email)
    ensures GetOptStr(OutreachDoc(o), "pitchAngle") == Some(o.pitchAngle)
    ensures GetOptStr(OutreachDoc(o), "notes") == Some(o.notes)
  {
  }

  lemma OutreachRoundTrip(o: OutreachItem)
    ensures OutreachFromDoc(OutreachDoc(o)) == Some(o)
  {
    OutreachRequiredFields(o);
    OutreachOtherFields(o);
    OutreachTimestampFields(o);
    OutreachOptionalFields(o);
    OutreachStatusDomain(o.status, "");
  }

  lemma OutreachDecodeSound(d: Doc, o: OutreachItem)
    requires OutreachFromDoc(d) == Some(o)
    ensures SubDoc(OutreachDoc(o), d)
  {
    OutreachStatusDomain(o.status, d["status"].s);
    var required := OutreachBase(o);
    assert SubDoc(required, d);
    var d1 := Put(required, "email", StrOpt(o.email));
    PutSubDoc(required, "email", StrOpt(o.email), d);
    var d2 := Put(d1, "pitchAngle", StrOpt(o.pitchAngle));
    PutSubDoc(d1, "pitchAngle", StrOpt(o.pitchAngle), d);
    PutSubDoc(d2, "notes", StrOpt(o.notes), d);
  }

  lemma MetricsRequiredFields(m: MetricsItem)
    ensures "id" in MetricsDoc(m) && MetricsDoc(m)["id"] == JStr(m.id)
    ensures "weekStart" in MetricsDoc(m) && MetricsDoc(m)["weekStart"] == JStr(m.weekStart)
    ensures "createdAt" in MetricsDoc(m) && MetricsDoc(m)["createdAt"] == JStr(m.createdAt)
  {
  }

  lemma MetricsNumberFields(m: MetricsItem)
    ensures "organicVisits" in MetricsDoc(m) && MetricsDoc(m)["organicVisits"] == JNum(m.organicVisits)
    ensures "leads" in MetricsDoc(m) && MetricsDoc(m)["leads"] == JNum(m.leads)
    ensures "conversionRate" in MetricsDoc(m) && MetricsDoc(m)["conversionRate"] == JNum(m.conversionRate)
  {
  }

  lemma MetricsOptionalFields(m: MetricsItem)
    ensures GetOptStr(MetricsDoc(m), "notes") == Some(m.notes)
    ensures GetOptStr(MetricsDoc(m), "insights") == Some(m.insights)
    ensures GetOptStr(MetricsDoc(m), "blockers") == Some(m.blockers)
  {
  }

  lemma MetricsRoundTrip(m: MetricsItem)
    ensures MetricsFromDoc(MetricsDoc(m)) == Some(m)
  {
    MetricsRequiredFields(m);
    MetricsNumberFields(m);
    MetricsOptionalFields(m);
  }

  lemma MetricsDecodeSound(d: Doc, m: MetricsItem)
    requires MetricsFromDoc(d) == Some(m)
    ensures SubDoc(MetricsDoc(m), d)
  {
    var required := MetricsBase(m);
    assert SubDoc(required, d);
    var d1 := Put(required, "notes", StrOpt(m.notes));
    PutSubDoc(required, "notes", StrOpt(m.notes), d);
    var d2 := Put(d1, "insights", StrOpt(m.insights));
    PutSubDoc(d1, "insights", StrOpt(m.insights), d);
    PutSubDoc(d2, "blockers", StrOpt(m.blockers), d);
  }

  lemma MomentumRequiredFields(m: MomentumItem)
    ensures "id" in MomentumDoc(m) && MomentumDoc(m)["id"] == JStr(m.id)
    ensures "date" in MomentumDoc(m) && MomentumDoc(m)["date"] == JStr(m.date)
    ensures "createdAt" in MomentumDoc(m) && MomentumDoc(m)["createdAt"] == JStr(m.createdAt)
  {
  }

  lemma MomentumNumberFields(m: MomentumItem)
    ensures "energyLevel" in MomentumDoc(m) && MomentumDoc(m)["energyLevel"] == JNum(m.energyLevel)
    ensures "focusLevel" in MomentumDoc(m) && MomentumDoc(m)["focusLevel"] == JNum(m.focusLevel)
  {
  }

  lemma MomentumOptionalFields(m: MomentumItem)
    ensures GetOptStr(MomentumDoc(m), "win") == Some(m.win)
    ensures GetOptStr(MomentumDoc(m), "blocker") == Some(m.blocker)
    ensures GetOptStr(MomentumDoc(m), "insight") == Some(m.insight)
  {
  }

  lemma MomentumRoundTrip(m: MomentumItem)
    ensures MomentumFromDoc(MomentumDoc(m)) == Some(m)
  {
    MomentumRequiredFields(m);
    MomentumNumberFields(m);
    MomentumOptionalFields(m);
  }

  lemma MomentumDecodeSound(d: Doc, m: MomentumItem)
    requires MomentumFromDoc(d) == Some(m)
    ensures SubDoc(MomentumDoc(m), d)
  {
    var required := MomentumBase(m);
    assert SubDoc(required, d);
    var d1 := Put(required, "win", StrOpt(m.win));
    PutSubDoc(required, "win", StrOpt(m.win), d);
    var d2 := Put(d1, "blocker", StrOpt(m.blocker));
    PutSubDoc(d1, "blocker", StrOpt(m.blocker), d);
    PutSubDoc(d2, "insight", StrOpt(m.insight), d);
  }

  /** Decoding a stored record gives the record back. */
  lemma RecordRoundTrip(r: Record)
    ensures FromDoc(r.Kind(), ToDoc(r)) == Some(r)
  {
    match r
    case Content(c) => ContentRoundTrip(c);
    case Technical(t) => TechnicalRoundTrip(t);
    case Outreach(o) => OutreachRoundTrip(o);
    case Metrics(m) => MetricsRoundTrip(m);
    case Momentum(m) => MomentumRoundTrip(m);
  }

  /** Conversely, a document that decodes holds every field of the record's
      own encoding: decoding loses only fields the record shape does not
      name. */
  lemma DecodeSound(k: Kind, d: Doc)
    ensures FromDoc(k, d).Some? ==> FromDoc(k, d).value.Kind() == k
    ensures FromDoc(k, d).Some? ==> SubDoc(ToDoc(FromDoc(k, d).value), d)
  {
    match k
    case ContentKind => if ContentFromDoc(d).Some? { ContentDecodeSound(d, ContentFromDoc(d).value); }
    case TechnicalKind => if TechnicalFromDoc(d).Some? { TechnicalDecodeSound(d, TechnicalFromDoc(d).value); }
    case OutreachKind => if OutreachFromDoc(d).Some? { OutreachDecodeSound(d, OutreachFromDoc(d).value); }
    case MetricsKind => if MetricsFromDoc(d).Some? { MetricsDecodeSound(d, MetricsFromDoc(d).value); }
    case MomentumKind => if MomentumFromDoc(d).Some? { MomentumDecodeSound(d, MomentumFromDoc(d).value); }
  }

  // ------------------------------------------- overwriting fields of a doc

  /** Overwriting fields other than an optional one commutes with adding
      that optional field. */
  lemma PutOverride(d: Doc, key: string, v: Option<Json>, fields: Doc)
    requires key !in fields
    ensures Put(d, key, v) + fields == Put(d + fields, key, v)
  {
  }

  /** Overwriting always-present fields of a content document with new
      values gives the document of the record holding those values. */
  lemma ContentDocOverride(c: ContentItem, c': ContentItem, fields: Doc)
    requires ContentBase(c) + fields == ContentBase(c')
    requires c'.publishDate == c.publishDate && c'.targetLandingPage == c.targetLandingPage
    requires c'.performanceScore == c.performanceScore && c'.internalLinks == c.internalLinks
    requires c'.notes == c.notes
    requires forall k :: k in fields ==> k in ContentBase(c)
    ensures ContentDoc(c) + fields == ContentDoc(c')
  {
    var b := ContentBase(c);
    var d1 := Put(b, "publishDate", StrOpt(c.publishDate));
    PutOverride(b, "publishDate", StrOpt(c.publishDate), fields);
    var d2 := Put(d1, "targetLandingPage", StrOpt(c.targetLandingPage));
    PutOverride(d1, "targetLandingPage", StrOpt(c.targetLandingPage), fields);
    var d3 := Put(d2, "performanceScore", NumOpt(c.performanceScore));
    PutOverride(d2, "performanceScore", NumOpt(c.performanceScore), fields);
    var d4 := Put(d3, "internalLinks", StrArrOpt(c.internalLinks));
    PutOverride(d3, "internalLinks", StrArrOpt(c.internalLinks), fields);
    PutOverride(d4, "notes", StrOpt(c.notes), fields);
  }

  /** Writing a new id and timestamps over a content document. */
  lemma ContentDocStamp(c: ContentItem, id: string, created: string, updated: string)
    ensures ContentDoc(c) + map["id" := JStr(id), "createdAt" := JStr(created), "updatedAt" := JStr(updated)]
      == ContentDoc(c.(id := id, createdAt := created, updatedAt := updated))
  {
    var fields := map["id" := JStr(id), "createdAt" := JStr(created), "updatedAt" := JStr(updated)];
    var c' := c.(id := id, createdAt := created, updatedAt := updated);
    assert ContentBase(c) + fields == ContentBase(c');
    ContentDocOverride(c, c', fields);
  }

  /** Writing a new status and `updatedAt` over a content document. */
  lemma ContentDocRestatus(c: ContentItem, s: ContentStatus, updated: string)
    ensures ContentDoc(c) + map["status" := JStr(ContentStatusName(s)), "updatedAt" := JStr(updated)]
      == ContentDoc(c.(status := s, updatedAt := updated))
  {
    var fields := map["status" := JStr(ContentStatusName(s)), "updatedAt" := JStr(updated)];
    var c' := c.(status := s, updatedAt := updated);
    assert ContentBase(c) + fields == ContentBase(c');
    ContentDocOverride(c, c', fields);
  }
}
