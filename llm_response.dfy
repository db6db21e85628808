/** The structured replies the language model may give, their decoding from JSON (the
    "type" discriminator, required properties, defaults, ignored unknown keys), and the
    rewriting of URL tokens in them. */
module Responses {
  import opened Wrappers
  import opened JsonValues

  datatype CommitteeUrl = CommitteeUrl(name: string, url: string)
  datatype Meeting = Meeting(date: string, title: string, meetingUrl: Option<string>)
  datatype Scheme = Scheme(title: string, topic: string, summary: string, meetingDate: string, committeeName: string, agendaUrl: string)
  datatype TriagedItem = TriagedItem(title: string, extract: string)

  datatype LlmResponse =
    | Fetch(urls: seq<string>, reason: string)
    | CommitteePagesFound(committees: seq<CommitteeUrl>)
    | MeetingsFound(meetings: seq<Meeting>)
    | AgendaFetch(urls: seq<string>, reason: string, items: seq<TriagedItem>)
    | AgendaTriaged(relevant: bool, items: seq<TriagedItem>, summary: Option<string>)
    | AgendaAnalyzed(schemes: seq<Scheme>)

  /** The serial name of each variant, the value of the "type" discriminator. */
  function Tag(r: LlmResponse): string
  {
    match r
    case Fetch(_, _) => "fetch"
    case CommitteePagesFound(_) => "committee_pages_found"
    case MeetingsFound(_) => "meetings_found"
    case AgendaFetch(_, _, _) => "agenda_item_fetch"
    case AgendaTriaged(_, _, _) => "agenda_triaged"
    case AgendaAnalyzed(_) => "agenda_analyzed"
  }

  /** Every property name any variant reads, plus the discriminator. */
  const KnownKeys: set<string> := {
    "type", "urls", "reason", "committees", "meetings", "items", "relevant", "summary", "schemes",
    "name", "url", "date", "title", "meetingUrl", "topic", "meetingDate", "committeeName", "agendaUrl", "extract"
  }

  // ---------------------------------------------------------------- decoding

  function DecodeCommitteeUrl(j: Json): Option<CommitteeUrl>
  {
    if !j.JObj? then None
    else
      var name :- Required(j.fields, "name", AsString);
      var url :- Required(j.fields, "url", AsString);
      Some(CommitteeUrl(name, url))
  }

  function DecodeMeeting(j: Json): Option<Meeting>
  {
    if !j.JObj? then None
    else
      var date :- Required(j.fields, "date", AsString);
      var title :- Required(j.fields, "title", AsString);
      var meetingUrl :- WithDefault(j.fields, "meetingUrl", AsNullableString, None);
      Some(Meeting(date, title, meetingUrl))
  }

  function DecodeScheme(j: Json): Option<Scheme>
  {
    if !j.JObj? then None
    else
      var title :- Required(j.fields, "title", AsString);
      var topic :- Required(j.fields, "topic", AsString);
      var summary :- Required(j.fields, "summary", AsString);
      var meetingDate :- WithDefault(j.fields, "meetingDate", AsString, "");
      var committeeName :- WithDefault(j.fields, "committeeName", AsString, "");
      var agendaUrl :- WithDefault(j.fields, "agendaUrl", AsString, "");
      Some(Scheme(title, topic, summary, meetingDate, committeeName, agendaUrl))
  }

  function DecodeTriagedItem(j: Json): Option<TriagedItem>
  {
    if !j.JObj? then None
    else
      var title :- Required(j.fields, "title", AsString);
      var extract :- Required(j.fields, "extract", AsString);
      Some(TriagedItem(title, extract))
  }

  function StringList(j: Json): Option<seq<string>> {
    AsList(j, AsString)
  }

  function CommitteeList(j: Json): Option<seq<CommitteeUrl>> {
    AsList(j, DecodeCommitteeUrl)
  }

  function MeetingList(j: Json): Option<seq<Meeting>> {
    AsList(j, DecodeMeeting)
  }

  function SchemeList(j: Json): Option<seq<Scheme>> {
    AsList(j, DecodeScheme)
  }

  function ItemList(j: Json): Option<seq<TriagedItem>> {
    AsList(j, DecodeTriagedItem)
  }

  /** Polymorphic decoding of a reply: the "type" string selects the variant, whose properties
      are then decoded strictly; properties with defaults may be absent; other keys are ignored. */
  function DecodeResponse(j: Json): Option<LlmResponse>
  {
    if !j.JObj? || "type" !in j.fields || !j.fields["type"].JStr? then None
    else
      var f := j.fields;
      var tag := f["type"].s;
      if tag == "fetch" then
        var urls :- Required(f, "urls", StringList);
        var reason :- Required(f, "reason", AsString);
        Some(Fetch(urls, reason))
      else if tag == "committee_pages_found" then
        var committees :- Required(f, "committees", CommitteeList);
        Some(CommitteePagesFound(committees))
      else if tag == "meetings_found" then
        var meetings :- Required(f, "meetings", MeetingList);
        Some(MeetingsFound(meetings))
      else if tag == "agenda_item_fetch" then
        var urls :- Required(f, "urls", StringList);
        var reason :- Required(f, "reason", AsString);
        var items :- WithDefault(f, "items", ItemList, []);
        Some(AgendaFetch(urls, reason, items))
      else if tag == "agenda_triaged" then
        var relevant :- Required(f, "relevant", AsBool);
        var items :- WithDefault(f, "items", ItemList, []);
        var summary :- WithDefault(f, "summary", AsNullableString, None);
        Some(AgendaTriaged(relevant, items, summary))
      else if tag == "agenda_analyzed" then
        var schemes :- Required(f, "schemes", SchemeList);
        Some(AgendaAnalyzed(schemes))
      else None
  }

  // ---------------------------------------------------------------- encoding (reference)

  function EncodeCommitteeUrl(c: CommitteeUrl): Json {
    JObj(map["name" := JStr(c.name), "url" := JStr(c.url)])
  }

  function EncodeNullable(s: Option<string>): Json {
    match s
    case None => JNull
    case Some(v) => JStr(v)
  }

  function EncodeMeeting(m: Meeting): Json {
    JObj(map["date" := JStr(m.date), "title" := JStr(m.title), "meetingUrl" := EncodeNullable(m.meetingUrl)])
  }

  function EncodeScheme(s: Scheme): Json {
    JObj(map["title" := JStr(s.title), "topic" := JStr(s.topic), "summary" := JStr(s.summary),
             "meetingDate" := JStr(s.meetingDate), "committeeName" := JStr(s.committeeName),
             "agendaUrl" := JStr(s.agendaUrl)])
  }

  function EncodeTriagedItem(t: TriagedItem): Json {
    JObj(map["title" := JStr(t.title), "extract" := JStr(t.extract)])
  }

  /** The JSON object a reply of this variant is written as, every property present. */
  function EncodeResponse(r: LlmResponse): Json
  {
    var t := JStr(Tag(r));
    match r
    case Fetch(urls, reason) =>
      JObj(map["type" := t, "urls" := EncodeList(urls, EncodeString), "reason" := JStr(reason)])
    case CommitteePagesFound(cs) =>
      JObj(map["type" := t, "committees" := EncodeList(cs, EncodeCommitteeUrl)])
    case MeetingsFound(ms) =>
      JObj(map["type" := t, "meetings" := EncodeList(ms, EncodeMeeting)])
    case AgendaFetch(urls, reason, items) =>
      JObj(map["type" := t, "urls" := EncodeList(urls, EncodeString), "reason" := JStr(reason),
               "items" := EncodeList(items, EncodeTriagedItem)])
    case AgendaTriaged(relevant, items, summary) =>
      JObj(map["type" := t, "relevant" := JBool(relevant), "items" := EncodeList(items, EncodeTriagedItem),
               "summary" := EncodeNullable(summary)])
    case AgendaAnalyzed(schemes) =>
      JObj(map["type" := t, "schemes" := EncodeList(schemes, EncodeScheme)])
  }

  lemma FetchRoundTrip(urls: seq<string>, reason: string)
    ensures DecodeResponse(EncodeResponse(Fetch(urls, reason))) == Some(Fetch(urls, reason))
  {
    StringListRoundTrip(urls);
  }

  lemma CommitteesRoundTrip(cs: seq<CommitteeUrl>)
    ensures DecodeResponse(EncodeResponse(CommitteePagesFound(cs))) == Some(CommitteePagesFound(cs))
  {
    ListRoundTrip(cs, EncodeCommitteeUrl, DecodeCommitteeUrl);
  }

  lemma MeetingRoundTrip(m: Meeting)
    ensures DecodeMeeting(EncodeMeeting(m)) == Some(m)
  {
    match m.meetingUrl {
      case None =>
      case Some(_) =>
    }
  }

  lemma MeetingsRoundTrip(ms: seq<Meeting>)
    ensures DecodeResponse(EncodeResponse(MeetingsFound(ms))) == Some(MeetingsFound(ms))
  {
    forall i | 0 <= i < |ms| ensures DecodeMeeting(EncodeMeeting(ms[i])) == Some(ms[i]) {
      MeetingRoundTrip(ms[i]);
    }
    ListRoundTrip(ms, EncodeMeeting, DecodeMeeting);
  }

  lemma AgendaFetchRoundTrip(urls: seq<string>, reason: string, items: seq<TriagedItem>)
    ensures DecodeResponse(EncodeResponse(AgendaFetch(urls, reason, items))) == Some(AgendaFetch(urls, reason, items))
  {
    StringListRoundTrip(urls);
    ListRoundTrip(items, EncodeTriagedItem, DecodeTriagedItem);
  }

  lemma TriagedRoundTrip(relevant: bool, items: seq<TriagedItem>, summary: Option<string>)
    ensures DecodeResponse(EncodeResponse(AgendaTriaged(relevant, items, summary))) == Some(AgendaTriaged(relevant, items, summary))
  {
    ListRoundTrip(items, EncodeTriagedItem, DecodeTriagedItem);
    match summary {
      case None =>
      case Some(_) =>
    }
  }

  lemma AnalyzedRoundTrip(schemes: seq<Scheme>)
    ensures DecodeResponse(EncodeResponse(AgendaAnalyzed(schemes))) == Some(AgendaAnalyzed(schemes))
  {
    ListRoundTrip(schemes, EncodeScheme, DecodeScheme);
  }

  /** Every reply survives encoding and decoding unchanged. */
  lemma DecodeEncode(r: LlmResponse)
    ensures DecodeResponse(EncodeResponse(r)) == Some(r)
  {
    match r
    case Fetch(urls, reason) => FetchRoundTrip(urls, reason);
    case CommitteePagesFound(cs) => CommitteesRoundTrip(cs);
    case MeetingsFound(ms) => MeetingsRoundTrip(ms);
    case AgendaFetch(urls, reason, items) => AgendaFetchRoundTrip(urls, reason, items);
    case AgendaTriaged(relevant, items, summary) => TriagedRoundTrip(relevant, items, summary);
    case AgendaAnalyzed(schemes) => AnalyzedRoundTrip(schemes);
  }

  /** A decoded reply is of the variant its "type" names. */
  lemma DecodedTag(j: Json)
    requires DecodeResponse(j).Some?
    ensures j.JObj? && "type" in j.fields && j.fields["type"] == JStr(Tag(DecodeResponse(j).value))
  {
    var tag := j.fields["type"].s;
    var r := DecodeResponse(j).value;
    if tag == "fetch" {
      assert r.Fetch?;
    } else if tag == "committee_pages_found" {
      assert r.CommitteePagesFound?;
    } else if tag == "meetings_found" {
      assert r.MeetingsFound?;
    } else if tag == "agenda_item_fetch" {
      assert r.AgendaFetch?;
    } else if tag == "agenda_triaged" {
      assert r.AgendaTriaged?;
    } else {
      assert r.AgendaAnalyzed?;
    }
  }

  /** Properties with defaults may be left out: a triage verdict with only "type" and "relevant". */
  lemma TriagedDefaults(relevant: bool)
    ensures DecodeResponse(JObj(map["type" := JStr("agenda_triaged"), "relevant" := JBool(relevant)]))
         == Some(AgendaTriaged(relevant, [], None))
  {
  }

  /** A property that is not nullable refuses JSON null even where it has a default. */
  lemma NullItemsRejected(urls: seq<string>, reason: string)
    ensures DecodeResponse(JObj(map["type" := JStr("agenda_item_fetch"), "urls" := EncodeList(urls, EncodeString),
                                    "reason" := JStr(reason), "items" := JNull])).None?
  {
  }

  /** Keys no variant reads do not change the outcome of decoding. */
  lemma UnknownKeyIgnored(fields: map<string, Json>, key: string, v: Json)
    requires key !in KnownKeys
    ensures DecodeResponse(JObj(fields[key := v])) == DecodeResponse(JObj(fields))
  {
    var g := fields[key := v];
    assert key != "type" && key != "urls" && key != "reason" && key != "committees" && key != "meetings";
    assert key != "items" && key != "relevant" && key != "summary" && key != "schemes";
    DecodeReadsTopKeys(g, fields);
  }

  /** Two objects agree at a key: both lack it, or both hold the same value there. */
  predicate AgreeAt(f: map<string, Json>, g: map<string, Json>, k: string) {
    (k in f <==> k in g) && (k in f ==> f[k] == g[k])
  }

  /** Decoding reads only the discriminator and the top-level properties of the variants. */
  lemma DecodeReadsTopKeys(f: map<string, Json>, g: map<string, Json>)
    requires AgreeAt(f, g, "type") && AgreeAt(f, g, "urls") && AgreeAt(f, g, "reason")
    requires AgreeAt(f, g, "committees") && AgreeAt(f, g, "meetings") && AgreeAt(f, g, "items")
    requires AgreeAt(f, g, "relevant") && AgreeAt(f, g, "summary") && AgreeAt(f, g, "schemes")
    ensures DecodeResponse(JObj(f)) == DecodeResponse(JObj(g))
  {
    // One case per variant, so that each case unfolds only that variant's decoding.
    if "type" in f && f["type"].JStr? {
      var tag := f["type"].s;
      if tag == "fetch" {
      } else if tag == "committee_pages_found" {
      } else if tag == "meetings_found" {
      } else if tag == "agenda_item_fetch" {
      } else if tag == "agenda_triaged" {
      } else if tag == "agenda_analyzed" {
      }
    }
  }

  // ---------------------------------------------------------------- URL tokens

  function MapStrings(xs: seq<string>, resolve: string -> string): (r: seq<string>)
    ensures |r| == |xs| && forall i :: 0 <= i < |xs| ==> r[i] == resolve(xs[i])
  {
    seq(|xs|, i requires 0 <= i < |xs| => resolve(xs[i]))
  }

  /** `resolveUrls`: every URL-valued property goes through `resolve` (a meeting's absent URL stays
      absent); reasons, names, dates, items, verdicts and schemes are untouched. */
  function ResolveUrls(r: LlmResponse, resolve: string -> string): (out: LlmResponse)
    ensures Tag(out) == Tag(r)
    ensures r.Fetch? ==> out.reason == r.reason && |out.urls| == |r.urls|
                         && forall i :: 0 <= i < |r.urls| ==> out.urls[i] == resolve(r.urls[i])
    ensures r.AgendaFetch? ==> out.reason == r.reason && out.items == r.items && |out.urls| == |r.urls|
                               && forall i :: 0 <= i < |r.urls| ==> out.urls[i] == resolve(r.urls[i])
    ensures r.CommitteePagesFound? ==> (
      && |out.committees| == |r.committees|
      && forall i :: 0 <= i < |r.committees| ==>
           out.committees[i] == CommitteeUrl(r.committees[i].name, resolve(r.committees[i].url)))
    ensures r.MeetingsFound? ==> (
      && |out.meetings| == |r.meetings|
      && forall i :: 0 <= i < |r.meetings| ==>
           && out.meetings[i].date == r.meetings[i].date
           && out.meetings[i].title == r.meetings[i].title
           && out.meetings[i].meetingUrl.Some? == r.meetings[i].meetingUrl.Some?
           && (r.meetings[i].meetingUrl.Some? ==> out.meetings[i].meetingUrl.value == resolve(r.meetings[i].meetingUrl.value)))
    ensures r.AgendaTriaged? || r.AgendaAnalyzed? ==> out == r
  {
    match r
    case Fetch(urls, reason) => Fetch(MapStrings(urls, resolve), reason)
    case AgendaFetch(urls, reason, items) => AgendaFetch(MapStrings(urls, resolve), reason, items)
    case CommitteePagesFound(cs) =>
      CommitteePagesFound(seq(|cs|, i requires 0 <= i < |cs| => CommitteeUrl(cs[i].name, resolve(cs[i].url))))
    case MeetingsFound(ms) =>
      MeetingsFound(seq(|ms|, i requires 0 <= i < |ms| =>
        Meeting(ms[i].date, ms[i].title,
                match ms[i].meetingUrl case None => None case Some(u) => Some(resolve(u)))))
    case AgendaTriaged(_, _, _) => r
    case AgendaAnalyzed(_) => r
  }

  /** Resolving with a function that changes nothing changes nothing. */
  lemma ResolveIdentity(r: LlmResponse, resolve: string -> string)
    requires forall u :: resolve(u) == u
    ensures ResolveUrls(r, resolve) == r
  {
    var out := ResolveUrls(r, resolve);
    match r
    case Fetch(urls, _) => assert out.urls == urls;
    case AgendaFetch(urls, _, _) => assert out.urls == urls;
    case CommitteePagesFound(cs) => assert out.committees == cs;
    case MeetingsFound(ms) =>
      forall i | 0 <= i < |ms| ensures out.meetings[i] == ms[i] {
        match ms[i].meetingUrl {
          case None =>
          case Some(_) =>
        }
      }
      assert out.meetings == ms;
    case AgendaTriaged(_, _, _) =>
    case AgendaAnalyzed(_) =>
  }

  /** Resolving twice with an idempotent resolver is resolving once. */
  lemma ResolveTwice(r: LlmResponse, resolve: string -> string)
    requires forall u :: resolve(resolve(u)) == resolve(u)
    ensures ResolveUrls(ResolveUrls(r, resolve), resolve) == ResolveUrls(r, resolve)
  {
    var once := ResolveUrls(r, resolve);
    var twice := ResolveUrls(once, resolve);
    match r
    case Fetch(urls, _) => assert twice.urls == once.urls;
    case AgendaFetch(urls, _, _) => assert twice.urls == once.urls;
    case CommitteePagesFound(cs) => assert twice.committees == once.committees;
    case MeetingsFound(ms) =>
      forall i | 0 <= i < |ms| ensures twice.meetings[i] == once.meetings[i] {
        match ms[i].meetingUrl {
          case None =>
          case Some(_) =>
        }
      }
      assert twice.meetings == once.meetings;
    case AgendaTriaged(_, _, _) =>
    case AgendaAnalyzed(_) =>
  }
}
