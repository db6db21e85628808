/** Whether the reply shapes the system texts describe are ones the reply decoder accepts. */
module InstructionChecks {
  import opened Wrappers
  import opened JsonValues
  import opened Responses
  import opened Prompts

  /** The discriminator values the decoder knows. */
  const ReplyTags: set<string> := {"fetch", "committee_pages_found", "meetings_found", "agenda_item_fetch", "agenda_triaged", "agenda_analyzed"}

  lemma TagIsReplyTag(r: LlmResponse)
    ensures Tag(r) in ReplyTags
  {
  }

  /** An object whose "type" is not a known tag never decodes, whatever its other properties. */
  lemma UnknownTypeRejected(fields: map<string, Json>, t: string)
    requires t !in ReplyTags
    ensures DecodeResponse(JObj(fields["type" := JStr(t)])).None?
  {
  }

  /** As written, the phase 3 system text asks for "agenda_fetch", which the decoder does not
      know: a reply that follows the instructions to request documents is refused, so the
      triage phase that receives it returns null. */
  lemma Phase3InstructedFetchRejected(urls: seq<string>, reason: string, items: seq<TriagedItem>)
    ensures "agenda_fetch" in InstructedReplyTypes(Phase3Instructed())
    ensures "agenda_fetch" !in ReplyTags
    ensures DecodeResponse(JObj(map["type" := JStr("agenda_fetch"), "urls" := EncodeList(urls, EncodeString),
                                    "reason" := JStr(reason), "items" := EncodeList(items, EncodeTriagedItem)])).None?
  {
  }

  /** The reply types the system texts evidently mean: phase 3 names the serial name of
      `AgendaFetch`. */
  function CorrectedReplyTypes(ins: Instructions): seq<string>
  {
    match ins
    case Phase3Instructions(_, _) => ["fetch", "agenda_item_fetch", "agenda_triaged"]
    case _ => InstructedReplyTypes(ins)
  }

  /** A reply value of each instructed type, so that, by `DecodeEncode`, a reply of that type decodes. */
  function WitnessReply(t: string): LlmResponse
  {
    if t == "fetch" then Fetch([], "")
    else if t == "committee_pages_found" then CommitteePagesFound([])
    else if t == "meetings_found" then MeetingsFound([])
    else if t == "agenda_item_fetch" then AgendaFetch([], "", [])
    else if t == "agenda_triaged" then AgendaTriaged(false, [], None)
    else AgendaAnalyzed([])
  }

  /** With the corrected names, every reply type a system text describes is a variant the
      decoder accepts, and a reply of that type survives encoding and decoding. */
  lemma CorrectedReplyTypesDecodable(ins: Instructions, k: nat)
    requires k < |CorrectedReplyTypes(ins)|
    ensures CorrectedReplyTypes(ins)[k] in ReplyTags
    ensures Tag(WitnessReply(CorrectedReplyTypes(ins)[k])) == CorrectedReplyTypes(ins)[k]
    ensures DecodeResponse(EncodeResponse(WitnessReply(CorrectedReplyTypes(ins)[k]))) == Some(WitnessReply(CorrectedReplyTypes(ins)[k]))
  {
    DecodeEncode(WitnessReply(CorrectedReplyTypes(ins)[k]));
  }

  /** As written, the phase 2 system text names a meeting's link "agendaUrl", a key `Meeting`
      does not read: a meeting given the way the instructions say decodes without its URL. */
  lemma InstructedMeetingLosesUrl(date: string, title: string, url: string)
    ensures DecodeMeeting(JObj(map["date" := JStr(date), "title" := JStr(title), InstructedMeetingUrlKey := JStr(url)]))
         == Some(Meeting(date, title, None))
  {
  }

  /** The key the phase 2 system text evidently means. */
  const CorrectedMeetingUrlKey: string := "meetingUrl"

  lemma CorrectedMeetingKeepsUrl(date: string, title: string, url: string)
    ensures DecodeMeeting(JObj(map["date" := JStr(date), "title" := JStr(title), CorrectedMeetingUrlKey := JStr(url)]))
         == Some(Meeting(date, title, Some(url)))
  {
  }
}
