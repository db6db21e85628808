/** The reply type of the older orchestrator. Its file declares `Fetch`, `CommitteePageFound`,
    `MeetingsFound` and `AgendaAnalyzed`, a `Meeting` whose link is `agendaUrl` and a `Scheme`
    of five required properties. The orchestrator also uses `CommitteePagesFound`,
    `AgendaFetch`, `AgendaTriaged` and a `resolveUrls` on this type that its file does not
    declare; they are given here the shape of their namesakes in the newer reply type. */
module PhaseResponses {
  import opened Wrappers
  import opened JsonValues
  import Responses

  type CommitteeUrl = Responses.CommitteeUrl
  type TriagedItem = Responses.TriagedItem

  datatype Meeting = Meeting(date: string, title: string, agendaUrl: Option<string>)
  datatype Scheme = Scheme(title: string, topic: string, summary: string, meetingDate: string, committeeName: string)

  datatype PhaseResponse =
    | Fetch(urls: seq<string>, reason: string)
    | CommitteePageFound(url: string)
    | MeetingsFound(meetings: seq<Meeting>)
    | AgendaAnalyzed(schemes: seq<Scheme>)
    | CommitteePagesFound(committees: seq<CommitteeUrl>)
    | AgendaFetch(urls: seq<string>, reason: string, items: seq<TriagedItem>)
    | AgendaTriaged(relevant: bool, items: seq<TriagedItem>)

  function Tag(r: PhaseResponse): string
  {
    match r
    case Fetch(_, _) => "fetch"
    case CommitteePageFound(_) => "committee_page_found"
    case MeetingsFound(_) => "meetings_found"
    case AgendaAnalyzed(_) => "agenda_analyzed"
    case CommitteePagesFound(_) => "committee_pages_found"
    case AgendaFetch(_, _, _) => "agenda_item_fetch"
    case AgendaTriaged(_, _) => "agenda_triaged"
  }

  // ---------------------------------------------------------------- decoding

  function DecodeMeeting(j: Json): Option<Meeting>
  {
    if !j.JObj? then None
    else
      var date :- Required(j.fields, "date", AsString);
      var title :- Required(j.fields, "title", AsString);
      var agendaUrl :- WithDefault(j.fields, "agendaUrl", AsNullableString, None);
      Some(Meeting(date, title, agendaUrl))
  }

  /** A scheme as the declared type reads it: all five properties required. */
  function DecodeSchemeAsDeclared(j: Json): Option<Scheme>
  {
    if !j.JObj? then None
    else
      var title :- Required(j.fields, "title", AsString);
      var topic :- Required(j.fields, "topic", AsString);
      var summary :- Required(j.fields, "summary", AsString);
      var meetingDate :- Required(j.fields, "meetingDate", AsString);
      var committeeName :- Required(j.fields, "committeeName", AsString);
      Some(Scheme(title, topic, summary, meetingDate, committeeName))
  }

  /** A scheme with the defaults the orchestrator evidently relies on: the meeting date and the
      committee name may be absent (they are stamped in afterwards). */
  function DecodeScheme(j: Json): Option<Scheme>
  {
    if !j.JObj? then None
    else
      var title :- Required(j.fields, "title", AsString);
      var topic :- Required(j.fields, "topic", AsString);
      var summary :- Required(j.fields, "summary", AsString);
      var meetingDate :- WithDefault(j.fields, "meetingDate", AsString, "");
      var committeeName :- WithDefault(j.fields, "committeeName", AsString, "");
      Some(Scheme(title, topic, summary, meetingDate, committeeName))
  }

  function StringList(j: Json): Option<seq<string>> {
    AsList(j, AsString)
  }

  function DecodeResponseWith(j: Json, scheme: Json -> Option<Scheme>): Option<PhaseResponse>
  {
    if !j.JObj? || "type" !in j.fields || !j.fields["type"].JStr? then None
    else
      var f := j.fields;
      var tag := f["type"].s;
      if tag == "fetch" then
        var urls :- Required(f, "urls", StringList);
        var reason :- Required(f, "reason", AsString);
        Some(Fetch(urls, reason))
      else if tag == "committee_page_found" then
        var url :- Required(f, "url", AsString);
        Some(CommitteePageFound(url))
      else if tag == "meetings_found" then
        var meetings :- Required(f, "meetings", (m: Json) => AsList(m, DecodeMeeting));
        Some(MeetingsFound(meetings))
      else if tag == "agenda_analyzed" then
        var schemes :- Required(f, "schemes", (s: Json) => AsList(s, scheme));
        Some(AgendaAnalyzed(schemes))
      else if tag == "committee_pages_found" then
        var committees :- Required(f, "committees", Responses.CommitteeList);
        Some(CommitteePagesFound(committees))
      else if tag == "agenda_item_fetch" then
        var urls :- Required(f, "urls", StringList);
        var reason :- Required(f, "reason", AsString);
        var items :- WithDefault(f, "items", Responses.ItemList, []);
        Some(AgendaFetch(urls, reason, items))
      else if tag == "agenda_triaged" then
        var relevant :- Required(f, "relevant", AsBool);
        var items :- WithDefault(f, "items", Responses.ItemList, []);
        Some(AgendaTriaged(relevant, items))
      else None
  }

  /** Decoding as the declared types read it. */
  function DecodeResponseAsDeclared(j: Json): Option<PhaseResponse> {
    DecodeResponseWith(j, DecodeSchemeAsDeclared)
  }

  /** Decoding with the scheme defaults; the orchestrator model uses this one. */
  function DecodeResponse(j: Json): Option<PhaseResponse> {
    DecodeResponseWith(j, DecodeScheme)
  }

  // ---------------------------------------------------------------- encoding (reference)

  function EncodeMeeting(m: Meeting): Json {
    JObj(map["date" := JStr(m.date), "title" := JStr(m.title), "agendaUrl" := Responses.EncodeNullable(m.agendaUrl)])
  }

  function EncodeScheme(s: Scheme): Json {
    JObj(map["title" := JStr(s.title), "topic" := JStr(s.topic), "summary" := JStr(s.summary),
             "meetingDate" := JStr(s.meetingDate), "committeeName" := JStr(s.committeeName)])
  }

  function EncodeResponse(r: PhaseResponse): Json
  {
    var t := JStr(Tag(r));
    match r
    case Fetch(urls, reason) =>
      JObj(map["type" := t, "urls" := EncodeList(urls, EncodeString), "reason" := JStr(reason)])
    case CommitteePageFound(url) =>
      JObj(map["type" := t, "url" := JStr(url)])
    case MeetingsFound(ms) =>
      JObj(map["type" := t, "meetings" := EncodeList(ms, EncodeMeeting)])
    case AgendaAnalyzed(schemes) =>
      JObj(map["type" := t, "schemes" := EncodeList(schemes, EncodeScheme)])
    case CommitteePagesFound(cs) =>
      JObj(map["type" := t, "committees" := EncodeList(cs, Responses.EncodeCommitteeUrl)])
    case AgendaFetch(urls, reason, items) =>
      JObj(map["type" := t, "urls" := EncodeList(urls, EncodeString), "reason" := JStr(reason),
               "items" := EncodeList(items, Responses.EncodeTriagedItem)])
    case AgendaTriaged(relevant, items) =>
      JObj(map["type" := t, "relevant" := JBool(relevant), "items" := EncodeList(items, Responses.EncodeTriagedItem)])
  }

  lemma MeetingRoundTrip(m: Meeting)
    ensures DecodeMeeting(EncodeMeeting(m)) == Some(m)
  {
    match m.agendaUrl {
      case None =>
      case Some(_) =>
    }
  }

  lemma MeetingsRoundTrip(ms: seq<Meeting>)
    ensures DecodeResponse(EncodeResponse(MeetingsFound(ms))) == Some(MeetingsFound(ms))
  {
    forall i | 0 <= i < |ms| ensures DecodeMeeting(EncodeMeeting(ms[i])) == Some(ms[i]) {
      MeetingRoundTrip(ms[i]);
    }
    ListRoundTrip(ms, EncodeMeeting, DecodeMeeting);
  }

  lemma AnalyzedRoundTrip(schemes: seq<Scheme>)
    ensures DecodeResponse(EncodeResponse(AgendaAnalyzed(schemes))) == Some(AgendaAnalyzed(schemes))
  {
    ListRoundTrip(schemes, EncodeScheme, DecodeScheme);
  }

  lemma CommitteesRoundTrip(cs: seq<CommitteeUrl>)
    ensures DecodeResponse(EncodeResponse(CommitteePagesFound(cs))) == Some(CommitteePagesFound(cs))
  {
    ListRoundTrip(cs, Responses.EncodeCommitteeUrl, Responses.DecodeCommitteeUrl);
  }

  lemma AgendaFetchRoundTrip(urls: seq<string>, reason: string, items: seq<TriagedItem>)
    ensures DecodeResponse(EncodeResponse(AgendaFetch(urls, reason, items))) == Some(AgendaFetch(urls, reason, items))
  {
    StringListRoundTrip(urls);
    ListRoundTrip(items, Responses.EncodeTriagedItem, Responses.DecodeTriagedItem);
  }

  lemma TriagedRoundTrip(relevant: bool, items: seq<TriagedItem>)
    ensures DecodeResponse(EncodeResponse(AgendaTriaged(relevant, items))) == Some(AgendaTriaged(relevant, items))
  {
    ListRoundTrip(items, Responses.EncodeTriagedItem, Responses.DecodeTriagedItem);
  }

  /** Every reply survives encoding and decoding unchanged. */
  lemma DecodeEncode(r: PhaseResponse)
    ensures DecodeResponse(EncodeResponse(r)) == Some(r)
  {
    match r
    case Fetch(urls, _) => StringListRoundTrip(urls);
    case CommitteePageFound(_) =>
    case MeetingsFound(ms) => MeetingsRoundTrip(ms);
    case AgendaAnalyzed(schemes) => AnalyzedRoundTrip(schemes);
    case CommitteePagesFound(cs) => CommitteesRoundTrip(cs);
    case AgendaFetch(urls, reason, items) => AgendaFetchRoundTrip(urls, reason, items);
    case AgendaTriaged(relevant, items) => TriagedRoundTrip(relevant, items);
  }

  /** A decoded reply is of the variant its "type" names. */
  lemma DecodedTag(j: Json)
    requires DecodeResponse(j).Some?
    ensures j.JObj? && "type" in j.fields && j.fields["type"] == JStr(Tag(DecodeResponse(j).value))
  {
    var tag := j.fields["type"].s;
    var r := DecodeResponse(j).value;
    if tag == "fetch" {
      assert r.Fetch?;
    } else if tag == "committee_page_found" {
      assert r.CommitteePageFound?;
    } else if tag == "meetings_found" {
      assert r.MeetingsFound?;
    } else if tag == "agenda_analyzed" {
      assert r.AgendaAnalyzed?;
    } else if tag == "committee_pages_found" {
      assert r.CommitteePagesFound?;
    } else if tag == "agenda_item_fetch" {
      assert r.AgendaFetch?;
    } else {
      assert r.AgendaTriaged?;
    }
  }

  /** The phase 4 instructions ask for schemes of a title, a topic and a summary only. */
  function InstructedScheme(title: string, topic: string, summary: string): Json {
    JObj(map["title" := JStr(title), "topic" := JStr(topic), "summary" := JStr(summary)])
  }

  function InstructedAnalysis(title: string, topic: string, summary: string): Json {
    JObj(map["type" := JStr("agenda_analyzed"), "schemes" := JArr([InstructedScheme(title, topic, summary)])])
  }

  /** As declared, such a reply is refused: the scheme lacks its meeting date and committee. */
  lemma InstructedAnalysisRefused(title: string, topic: string, summary: string)
    ensures DecodeResponseAsDeclared(InstructedAnalysis(title, topic, summary)).None?
  {
    assert DecodeSchemeAsDeclared(InstructedScheme(title, topic, summary)).None?;
  }

  /** With the defaults, it decodes to the scheme with empty meeting date and committee. */
  lemma InstructedAnalysisAccepted(title: string, topic: string, summary: string)
    ensures DecodeResponse(InstructedAnalysis(title, topic, summary))
         == Some(AgendaAnalyzed([Scheme(title, topic, summary, "", "")]))
  {
    var one := [InstructedScheme(title, topic, summary)];
    assert DecodeScheme(one[0]) == Some(Scheme(title, topic, summary, "", ""));
    var r := DecodeAll(one, DecodeScheme);
    assert r.Some? && |r.value| == 1 && DecodeScheme(one[0]) == Some(r.value[0]);
    assert r.value == [Scheme(title, topic, summary, "", "")];
  }

  // ---------------------------------------------------------------- URL tokens

  /** `resolveUrls` on this type: every URL-valued property goes through `resolve`, an absent
      meeting link stays absent, and everything else is untouched. */
  function ResolveUrls(r: PhaseResponse, resolve: string -> string): (out: PhaseResponse)
    ensures Tag(out) == Tag(r)
    ensures (r.Fetch? || r.AgendaFetch?) ==> (
      && out.reason == r.reason && |out.urls| == |r.urls|
      && forall i :: 0 <= i < |r.urls| ==> out.urls[i] == resolve(r.urls[i]))
    ensures r.AgendaFetch? ==> out.items == r.items
    ensures r.CommitteePageFound? ==> out.url == resolve(r.url)
    ensures r.CommitteePagesFound? ==> (
      && |out.committees| == |r.committees|
      && forall i :: 0 <= i < |r.committees| ==>
           out.committees[i] == Responses.CommitteeUrl(r.committees[i].name, resolve(r.committees[i].url)))
    ensures r.MeetingsFound? ==> (
      && |out.meetings| == |r.meetings|
      && forall i :: 0 <= i < |r.meetings| ==>
           && out.meetings[i].date == r.meetings[i].date
           && out.meetings[i].title == r.meetings[i].title
           && out.meetings[i].agendaUrl.Some? == r.meetings[i].agendaUrl.Some?
           && (r.meetings[i].agendaUrl.Some? ==> out.meetings[i].agendaUrl.value == resolve(r.meetings[i].agendaUrl.value)))
    ensures r.AgendaTriaged? || r.AgendaAnalyzed? ==> out == r
  {
    match r
    case Fetch(urls, reason) => Fetch(Responses.MapStrings(urls, resolve), reason)
    case CommitteePageFound(url) => CommitteePageFound(resolve(url))
    case AgendaFetch(urls, reason, items) => AgendaFetch(Responses.MapStrings(urls, resolve), reason, items)
    case CommitteePagesFound(cs) =>
      CommitteePagesFound(seq(|cs|, i requires 0 <= i < |cs| => Responses.CommitteeUrl(cs[i].name, resolve(cs[i].url))))
    case MeetingsFound(ms) =>
      MeetingsFound(seq(|ms|, i requires 0 <= i < |ms| =>
        Meeting(ms[i].date, ms[i].title,
                match ms[i].agendaUrl case None => None case Some(u) => Some(resolve(u)))))
    case AgendaTriaged(_, _) => r
    case AgendaAnalyzed(_) => r
  }
}
