/** `DefaultLlmAnalyzer.parseResponse`: the tolerant decoding of the generator's JSON answer
    into an `AnalysisResult`. The answer enters already parsed into a `Json` tree (None when the
    text is not JSON at all); every way the original code throws becomes the all-empty result. */
module Analyzer {
  import opened Wrappers
  import opened Text
  import opened JsonValues
  import opened Decisions

  /** The result of a failed decoding. */
  const Empty := AnalysisResult([], [], false)

  // ---------------------------------------------------------------- primitives

  /** `jsonPrimitive.content`: the text of a primitive, where JSON null reads "null"; arrays and
      objects are not primitives and make the accessor throw. */
  function Content(j: Json): (r: Option<string>)
    ensures r.None? <==> j.JArr? || j.JObj?
    ensures j.JStr? ==> r == Some(j.s)
    ensures j.JNull? ==> r == Some("null")
  {
    match j
    case JNull => Some("null")
    case JBool(b) => Some(if b then "true" else "false")
    case JNum(literal) => Some(literal)
    case JStr(s) => Some(s)
    case _ => None
  }

  /** `jsonPrimitive.boolean`: a primitive whose text is "true" or "false", in any letter case. */
  function BooleanOf(j: Json): (r: Option<bool>)
    ensures r == Some(true) <==> Content(j).Some? && EqualsIgnoreCaseAscii(Content(j).value, "true")
    ensures r == Some(false) <==> Content(j).Some? && EqualsIgnoreCaseAscii(Content(j).value, "false")
  {
    match Content(j)
    case None => None
    case Some(text) =>
      if EqualsIgnoreCaseAscii(text, "true") then Some(true)
      else if EqualsIgnoreCaseAscii(text, "false") then Some(false)
      else None
  }

  /** JSON literals read as the booleans they are; the letter case of a string does not matter,
      but other words, numbers and null are not booleans. */
  lemma BooleanOfLiteral(b: bool)
    ensures BooleanOf(JBool(b)) == Some(b)
    ensures BooleanOf(JStr("TRUE")) == Some(true) && BooleanOf(JStr("False")) == Some(false)
    ensures BooleanOf(JStr("yes")) == None && BooleanOf(JNum("1")) == None && BooleanOf(JNull) == None
  {
    assert !EqualsIgnoreCaseAscii("null", "true") by { assert LowerAscii("null"[0]) != LowerAscii("true"[0]); }
    assert !EqualsIgnoreCaseAscii("1", "true");
  }

  /** The range of a Kotlin `Int`. */
  const IntMin: int := -0x8000_0000
  const IntMax: int := 0x7fff_ffff

  function DigitValue(c: char): int {
    c as int - '0' as int
  }

  predicate AllDigits(s: string) {
    forall i :: 0 <= i < |s| ==> IsDigit(s[i])
  }

  /** The number a run of decimal digits spells. */
  function DigitsValue(s: string): (n: nat)
    requires AllDigits(s)
  {
    if s == [] then 0 else DigitsValue(s[..|s| - 1]) * 10 + DigitValue(s[|s| - 1])
  }

  /** `jsonPrimitive.int` on a primitive's text. kotlinx-serialization-json reads the text with
      its JSON number lexer and then checks the `Int` range: an optional '-', at least one
      digit, and a value that fits a Kotlin `Int`. JSON numbers have no '+' sign, so a leading
      '+' is refused. */
  function ParseInt(s: string): (r: Option<int>)
    ensures r.Some? ==> IntMin <= r.value <= IntMax
    ensures |s| > 0 && s[0] == '+' ==> r == None
  {
    if |s| > 0 && s[0] == '-' then SignedValue(true, s[1..])
    else SignedValue(false, s)
  }

  /** The digits after the sign, when there are any and they fit. */
  function SignedValue(negative: bool, digits: string): (r: Option<int>)
    ensures r.Some? ==> IntMin <= r.value <= IntMax
  {
    if digits == [] || !AllDigits(digits) then None
    else
      var magnitude: int := DigitsValue(digits);
      var v := if negative then -magnitude else magnitude;
      if IntMin <= v <= IntMax then Some(v) else None
  }

  /** How a `Decision`'s score is written in JSON. */
  function IntToString(n: int): string {
    if n < 0 then "-" + NatToString(-n) else NatToString(n)
  }

  lemma {:induction false} DigitsOfNat(n: nat)
    ensures AllDigits(NatToString(n)) && DigitsValue(NatToString(n)) == n
    decreases n
  {
    var s := NatToString(n);
    if n < 10 {
      assert s[..|s| - 1] == [];
      DigitCharValue(n);
    } else {
      DigitsOfNat(n / 10);
      assert s[..|s| - 1] == NatToString(n / 10);
      DigitCharValue(n % 10);
    }
  }

  lemma DigitCharValue(d: nat)
    requires d < 10
    ensures DigitValue(DigitChar(d)) == d
  {
    assert "0123456789"[0] == '0' && "0123456789"[1] == '1' && "0123456789"[2] == '2';
    assert "0123456789"[3] == '3' && "0123456789"[4] == '4' && "0123456789"[5] == '5';
    assert "0123456789"[6] == '6' && "0123456789"[7] == '7' && "0123456789"[8] == '8';
    assert "0123456789"[9] == '9';
  }

  /** Every `Int` is read back from its decimal text, and never with a '+' in front. */
  lemma ParseIntRoundTrip(n: int)
    requires IntMin <= n <= IntMax
    ensures ParseInt(IntToString(n)) == Some(n)
    ensures ParseInt("+" + IntToString(n)) == None
  {
    if n < 0 {
      DigitsOfNat(-n);
      assert ("-" + NatToString(-n))[1..] == NatToString(-n);
      assert SignedValue(true, NatToString(-n)) == Some(n);
    } else {
      DigitsOfNat(n);
      assert NatToString(n)[0] != '-';
      assert SignedValue(false, NatToString(n)) == Some(n);
    }
    assert ("+" + IntToString(n))[0] == '+';
  }

  /** A fraction, a word, a bare sign or nothing at all is not an `Int`. */
  lemma ParseIntRefuses()
    ensures ParseInt("7.5") == None && ParseInt("high") == None && ParseInt("") == None && ParseInt("-") == None
    ensures ParseInt("+") == None && ParseInt("null") == None
  {
    assert !IsDigit("7.5"[1]);
    assert !IsDigit("high"[0]);
    assert !IsDigit("null"[0]);
  }

  /** One past the largest `Int` does not parse. */
  lemma ParseIntOverflow()
    ensures ParseInt("2147483648") == None
  {
    var big := "2147483648";
    assert DigitsValue(big) > IntMax by {
      assert AllDigits(big);
      assert big[..|big| - 1] == "214748364";
      assert DigitsValue(big) == DigitsValue("214748364") * 10 + 8;
      assert DigitsValue("214748364") == 214748364 by {
        DigitsOfNat(214748364);
        NatToStringExample();
      }
    }
  }

  lemma NatToStringExample()
    ensures NatToString(214748364) == "214748364"
  {
    assert NatToString(2) == "2";
    assert NatToString(21) == "21";
    assert NatToString(214) == "214";
    assert NatToString(2147) == "2147";
    assert NatToString(21474) == "21474";
    assert NatToString(214748) == "214748";
    assert NatToString(2147483) == "2147483";
    assert NatToString(21474836) == "21474836";
  }

  /** `jsonPrimitive.int`. */
  function IntOf(j: Json): Option<int> {
    match Content(j)
    case None => None
    case Some(text) => ParseInt(text)
  }

  // ---------------------------------------------------------------- decisions

  /** The category of a decision object: the constant the property names; OTHER_ACTIVE_TRAVEL
      when the property is missing, names no constant, or is not a primitive (the accessor's
      `IllegalArgumentException` is caught together with `valueOf`'s). */
  function CategoryOf(fields: map<string, Json>): (r: Category)
    ensures r == OtherActiveTravel || ("category" in fields && Content(fields["category"]) == Some(Name(r)))
    ensures "category" in fields && Content(fields["category"]).Some? && ValueOf(Content(fields["category"]).value).Some?
            ==> r == ValueOf(Content(fields["category"]).value).value
  {
    if "category" !in fields then OtherActiveTravel
    else match Content(fields["category"])
      case None => OtherActiveTravel
      case Some(text) => if ValueOf(text).Some? then ValueOf(text).value else OtherActiveTravel
  }

  /** One element of "decisions", stamped with the council and the page it came from. */
  function DecodeDecision(council: Council, pageUrl: string, j: Json): (r: Option<Decision>)
    ensures r.Some? ==> r.value.councilId == council.id && r.value.councilName == council.name
                        && r.value.meetingTitle == "" && r.value.meetingUrl == pageUrl
                        && IntMin <= r.value.relevanceScore <= IntMax
  {
    if !j.JObj? then None
    else
      var fields := j.fields;
      var summary := WithDefault(fields, "summary", Content, "");
      var score := WithDefault(fields, "relevanceScore", IntOf, 0);
      if summary.None? || score.None? then None
      else Some(Decision(council.id, council.name, "", pageUrl, summary.value, CategoryOf(fields), score.value))
  }

  /** The whole answer: an object whose three properties decode, each missing one taking its
      default. */
  function DecodeResult(council: Council, pageUrl: string, j: Json): Option<AnalysisResult>
  {
    if !j.JObj? then None
    else
      var fields := j.fields;
      var relevant := WithDefault(fields, "hasRelevantContent", BooleanOf, false);
      var decisions := WithDefault(fields, "decisions", (d: Json) => AsList(d, (e: Json) => DecodeDecision(council, pageUrl, e)), []);
      var followUps := WithDefault(fields, "followUpUrls", (u: Json) => AsList(u, Content), []);
      if relevant.None? || decisions.None? || followUps.None? then None
      else Some(AnalysisResult(decisions.value, followUps.value, relevant.value))
  }

  /** `parseResponse`: the decoded answer, or the all-empty result on any failure. */
  function ParseResponse(council: Council, parsed: Option<Json>, pageUrl: string): (r: AnalysisResult)
    ensures forall i :: 0 <= i < |r.decisions| ==>
              r.decisions[i].councilId == council.id && r.decisions[i].councilName == council.name
              && r.decisions[i].meetingTitle == "" && r.decisions[i].meetingUrl == pageUrl
    ensures (parsed.None? || DecodeResult(council, pageUrl, parsed.value).None?) ==> r == Empty
  {
    if parsed.None? then Empty
    else match DecodeResult(council, pageUrl, parsed.value)
      case None => Empty
      case Some(result) =>
        DecodedStamped(council, pageUrl, parsed.value);
        result
  }

  lemma DecodedStamped(council: Council, pageUrl: string, j: Json)
    requires DecodeResult(council, pageUrl, j).Some?
    ensures var r := DecodeResult(council, pageUrl, j).value;
            forall i :: 0 <= i < |r.decisions| ==>
              r.decisions[i].councilId == council.id && r.decisions[i].councilName == council.name
              && r.decisions[i].meetingTitle == "" && r.decisions[i].meetingUrl == pageUrl
  {
    var r := DecodeResult(council, pageUrl, j).value;
    if "decisions" in j.fields {
      var items := j.fields["decisions"].items;
      assert forall i :: 0 <= i < |items| ==> DecodeDecision(council, pageUrl, items[i]) == Some(r.decisions[i]);
    }
  }

  /** `analyzePage` with the generator as an oracle from the prompt's inputs to its parsed
      answer (None when the call throws, which the analyser does not catch). */
  function AnalyzePage(complete: (Council, string, string) -> Option<Option<Json>>,
                       council: Council, pageContent: string, pageUrl: string): (r: Option<AnalysisResult>)
    ensures r.Some? ==> forall i :: 0 <= i < |r.value.decisions| ==> r.value.decisions[i].meetingUrl == pageUrl
    ensures r.None? <==> complete(council, pageContent, pageUrl).None?
  {
    match complete(council, pageContent, pageUrl)
    case None => None
    case Some(parsed) => Some(ParseResponse(council, parsed, pageUrl))
  }

  // ---------------------------------------------------------------- properties

  /** An empty object gives the defaults: nothing relevant, no decisions, no follow-ups. */
  lemma EmptyObjectDefaults(council: Council, pageUrl: string)
    ensures ParseResponse(council, Some(JObj(map[])), pageUrl) == AnalysisResult([], [], false)
  {
  }

  /** Each missing property takes its own default while the others decode as given. */
  lemma MissingPropertiesDefault(council: Council, pageUrl: string, fields: map<string, Json>)
    requires DecodeResult(council, pageUrl, JObj(fields)).Some?
    ensures var r := ParseResponse(council, Some(JObj(fields)), pageUrl);
            && ("hasRelevantContent" !in fields ==> !r.hasRelevantContent)
            && ("decisions" !in fields ==> r.decisions == [])
            && ("followUpUrls" !in fields ==> r.followUpUrls == [])
  {
  }

  /** A decision object without summary, category or score reads as "", OTHER_ACTIVE_TRAVEL
      and 0; an unknown category name, or a category that is an array or an object, also reads
      as OTHER_ACTIVE_TRAVEL. */
  lemma DecisionDefaults(council: Council, pageUrl: string, fields: map<string, Json>)
    requires DecodeDecision(council, pageUrl, JObj(fields)).Some?
    ensures var d := DecodeDecision(council, pageUrl, JObj(fields)).value;
            && ("summary" !in fields ==> d.summary == "")
            && ("category" !in fields ==> d.category == OtherActiveTravel)
            && ("relevanceScore" !in fields ==> d.relevanceScore == 0)
            && (forall name :: "category" in fields && Content(fields["category"]) == Some(name) && ValueOf(name).None?
                  ==> d.category == OtherActiveTravel)
            && ("category" in fields && Content(fields["category"]).None? ==> d.category == OtherActiveTravel)
  {
  }

  /** Decisions keep the array's length and order: the i-th decision comes from the i-th element. */
  lemma DecisionsInOrder(council: Council, pageUrl: string, fields: map<string, Json>)
    requires DecodeResult(council, pageUrl, JObj(fields)).Some? && "decisions" in fields
    ensures var r := ParseResponse(council, Some(JObj(fields)), pageUrl);
            && fields["decisions"].JArr? && |r.decisions| == |fields["decisions"].items|
            && forall i :: 0 <= i < |r.decisions| ==>
                 DecodeDecision(council, pageUrl, fields["decisions"].items[i]) == Some(r.decisions[i])
  {
  }

  /** One score that is not an `Int`, or an answer that is not an object, loses everything. */
  lemma BadInputLosesAll(council: Council, pageUrl: string, fields: map<string, Json>, k: nat)
    requires "decisions" in fields && fields["decisions"].JArr? && k < |fields["decisions"].items|
    requires var item := fields["decisions"].items[k];
             item.JObj? && "relevanceScore" in item.fields && IntOf(item.fields["relevanceScore"]).None?
    ensures ParseResponse(council, Some(JObj(fields)), pageUrl) == Empty
    ensures forall j: Json :: !j.JObj? ==> ParseResponse(council, Some(j), pageUrl) == Empty
  {
    var items := fields["decisions"].items;
    assert DecodeDecision(council, pageUrl, items[k]).None?;
  }

  /** The JSON the prompt asks for, written for a decision. */
  function EncodeDecision(d: Decision): Json {
    JObj(map["summary" := JStr(d.summary), "category" := JStr(Name(d.category)),
             "relevanceScore" := JNum(IntToString(d.relevanceScore))])
  }

  /** The JSON the prompt asks for, written for a whole result. */
  function EncodeResult(r: AnalysisResult): Json {
    JObj(map["hasRelevantContent" := JBool(r.hasRelevantContent),
             "decisions" := EncodeList(r.decisions, EncodeDecision),
             "followUpUrls" := EncodeList(r.followUpUrls, (u: string) => JStr(u))])
  }

  /** What the decoder adds to a decision: the council, the page and an empty meeting title. */
  function Stamp(council: Council, pageUrl: string, d: Decision): Decision {
    d.(councilId := council.id, councilName := council.name, meetingTitle := "", meetingUrl := pageUrl)
  }

  /** A decision written as the prompt asks reads back stamped. */
  lemma DecisionRoundTrip(council: Council, pageUrl: string, d: Decision)
    requires IntMin <= d.relevanceScore <= IntMax
    ensures DecodeDecision(council, pageUrl, EncodeDecision(d)) == Some(Stamp(council, pageUrl, d))
  {
    var fields := EncodeDecision(d).fields;
    ParseIntRoundTrip(d.relevanceScore);
    ValueOfName(d.category);
    assert WithDefault(fields, "summary", Content, "") == Some(d.summary);
    assert CategoryOf(fields) == d.category;
    assert WithDefault(fields, "relevanceScore", IntOf, 0) == Some(d.relevanceScore);
  }

  /** An answer written as the prompt asks reads back as the same result, each decision stamped
      with the council and the page. */
  lemma ParseEncodedResult(council: Council, pageUrl: string, r: AnalysisResult)
    requires forall i :: 0 <= i < |r.decisions| ==> IntMin <= r.decisions[i].relevanceScore <= IntMax
    ensures var back := ParseResponse(council, Some(EncodeResult(r)), pageUrl);
            && back.hasRelevantContent == r.hasRelevantContent
            && back.followUpUrls == r.followUpUrls
            && |back.decisions| == |r.decisions|
            && forall i :: 0 <= i < |r.decisions| ==> back.decisions[i] == Stamp(council, pageUrl, r.decisions[i])
  {
    var stamped := StampAll(council, pageUrl, r.decisions);
    assert DecodeResult(council, pageUrl, EncodeResult(r)) == Some(AnalysisResult(stamped, r.followUpUrls, r.hasRelevantContent)) by {
      DecodeEncodedResult(council, pageUrl, r);
    }
  }

  /** Every decision stamped with the council and the page, in order. */
  function StampAll(council: Council, pageUrl: string, ds: seq<Decision>): (r: seq<Decision>)
    ensures |r| == |ds| && forall i :: 0 <= i < |ds| ==> r[i] == Stamp(council, pageUrl, ds[i])
  {
    seq(|ds|, i requires 0 <= i < |ds| => Stamp(council, pageUrl, ds[i]))
  }

  lemma DecodeEncodedResult(council: Council, pageUrl: string, r: AnalysisResult)
    requires forall i :: 0 <= i < |r.decisions| ==> IntMin <= r.decisions[i].relevanceScore <= IntMax
    ensures DecodeResult(council, pageUrl, EncodeResult(r))
         == Some(AnalysisResult(StampAll(council, pageUrl, r.decisions), r.followUpUrls, r.hasRelevantContent))
  {
    DecisionsField(council, pageUrl, r);
    UrlsField(r);
    assert WithDefault(EncodeResult(r).fields, "hasRelevantContent", BooleanOf, false) == Some(r.hasRelevantContent);
  }

  lemma DecisionsField(council: Council, pageUrl: string, r: AnalysisResult)
    requires forall i :: 0 <= i < |r.decisions| ==> IntMin <= r.decisions[i].relevanceScore <= IntMax
    ensures WithDefault(EncodeResult(r).fields, "decisions", (d: Json) => AsList(d, (e: Json) => DecodeDecision(council, pageUrl, e)), [])
         == Some(StampAll(council, pageUrl, r.decisions))
  {
    var decode := (e: Json) => DecodeDecision(council, pageUrl, e);
    DecisionsRoundTrip(council, pageUrl, r.decisions);
    var back := DecodeAll(EncodeList(r.decisions, EncodeDecision).items, decode);
    assert back.value == StampAll(council, pageUrl, r.decisions);
  }

  lemma UrlsField(r: AnalysisResult)
    ensures WithDefault(EncodeResult(r).fields, "followUpUrls", (u: Json) => AsList(u, Content), []) == Some(r.followUpUrls)
  {
    UrlsRoundTrip(r.followUpUrls);
  }

  /** The decisions of an answer read back stamped, in order. */
  lemma DecisionsRoundTrip(council: Council, pageUrl: string, ds: seq<Decision>)
    requires forall i :: 0 <= i < |ds| ==> IntMin <= ds[i].relevanceScore <= IntMax
    ensures var back := DecodeAll(EncodeList(ds, EncodeDecision).items, (e: Json) => DecodeDecision(council, pageUrl, e));
      && back.Some? && |back.value| == |ds|
      && forall i :: 0 <= i < |ds| ==> back.value[i] == Stamp(council, pageUrl, ds[i])
  {
    var items := EncodeList(ds, EncodeDecision).items;
    var decode := (e: Json) => DecodeDecision(council, pageUrl, e);
    forall i | 0 <= i < |items| ensures decode(items[i]) == Some(Stamp(council, pageUrl, ds[i])) {
      DecisionRoundTrip(council, pageUrl, ds[i]);
    }
  }

  /** The follow-up URLs of an answer read back unchanged. */
  lemma UrlsRoundTrip(us: seq<string>)
    ensures DecodeAll(EncodeList(us, (u: string) => JStr(u)).items, Content) == Some(us)
  {
    var back := DecodeAll(EncodeList(us, (u: string) => JStr(u)).items, Content);
    assert back.Some?;
    assert back.value == us;
  }
}
