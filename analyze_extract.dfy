/** Phase 4: one generator call on the joined extract of a relevant agenda, then every scheme of
    the `agenda_analyzed` reply stamped with the meeting's date, the committee and the meeting's
    URL. There is no page to fetch and no queue. */
module AnalyzeExtract {
  import opened Wrappers
  import opened Responses
  import opened Prompts

  datatype AnalyzeExtractInput = AnalyzeExtractInput(extract: string, committeeName: string, meeting: Meeting)

  /** The copy of a scheme the phase returns. */
  function Stamp(sc: Scheme, input: AnalyzeExtractInput): Scheme
  {
    sc.(meetingDate := input.meeting.date, committeeName := input.committeeName,
        agendaUrl := input.meeting.meetingUrl.GetOr(""))
  }

  /** `schemes.map { it.copy(...) }`. */
  function StampAll(schemes: seq<Scheme>, input: AnalyzeExtractInput): (r: seq<Scheme>)
    ensures |r| == |schemes| && forall i :: 0 <= i < |schemes| ==> r[i] == Stamp(schemes[i], input)
  {
    seq(|schemes|, i requires 0 <= i < |schemes| => Stamp(schemes[i], input))
  }

  /** `execute`: the reply to the single call `call`, made with the phase 4 prompt of the extract. */
  function Execute(replies: nat -> Option<LlmResponse>, input: AnalyzeExtractInput, call: nat): (r: Option<seq<Scheme>>)
    ensures r.Some? <==> replies(call).Some? && replies(call).value.AgendaAnalyzed?
    ensures r.Some? ==>
      var schemes := replies(call).value.schemes;
      && |r.value| == |schemes|
      && forall i :: 0 <= i < |schemes| ==>
           && r.value[i].title == schemes[i].title
           && r.value[i].topic == schemes[i].topic
           && r.value[i].summary == schemes[i].summary
           && r.value[i].meetingDate == input.meeting.date
           && r.value[i].committeeName == input.committeeName
           && r.value[i].agendaUrl == (if input.meeting.meetingUrl.Some? then input.meeting.meetingUrl.value else "")
  {
    match replies(call)
    case None => None
    case Some(response) =>
      if response.AgendaAnalyzed? then
        Some(StampAll(response.schemes, input))
      else None
  }

  /** The prompt of that call: the extract is the whole user text. */
  function CallPrompt(input: AnalyzeExtractInput): (p: Prompt)
    ensures p.user == input.extract
  {
    Phase4Prompt(input.extract)
  }

  // ---------------------------------------------------------------- properties

  /** Only the reply to the one call matters: generators that agree on it give the same result. */
  lemma OneCall(replies1: nat -> Option<LlmResponse>, replies2: nat -> Option<LlmResponse>, input: AnalyzeExtractInput, call: nat)
    requires replies1(call) == replies2(call)
    ensures Execute(replies1, input, call) == Execute(replies2, input, call)
  {
  }

  /** The meeting fields the reply gives are overridden: scheme lists that agree on title,
      topic and summary come out the same. */
  lemma StampOverrides(schemes: seq<Scheme>, other: seq<Scheme>, input: AnalyzeExtractInput)
    requires |other| == |schemes|
    requires forall i :: 0 <= i < |other| ==>
      other[i].title == schemes[i].title && other[i].topic == schemes[i].topic && other[i].summary == schemes[i].summary
    ensures StampAll(schemes, input) == StampAll(other, input)
  {
    var mine := StampAll(schemes, input);
    var theirs := StampAll(other, input);
    forall i | 0 <= i < |mine|
      ensures mine[i] == theirs[i]
    {
    }
  }

  /** Stamping twice is stamping once. */
  lemma StampIdempotent(sc: Scheme, input: AnalyzeExtractInput)
    ensures Stamp(Stamp(sc, input), input) == Stamp(sc, input)
  {
  }

  /** A meeting without a URL gives every scheme an empty agenda URL. */
  lemma NoUrlEmptyAgenda(replies: nat -> Option<LlmResponse>, input: AnalyzeExtractInput, call: nat)
    requires input.meeting.meetingUrl.None?
    ensures Execute(replies, input, call).Some? ==>
      forall sc :: sc in Execute(replies, input, call).value ==> sc.agendaUrl == ""
  {
  }
}
