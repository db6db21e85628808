/** `DefaultBlueskyPublisher`: post formatting, the relevance filter of `publishAll`, and the
    cached session token. Kotlin strings are sequences of UTF-16 code units, and the 300-character
    limit counts those units, so a post is a `seq<CodeUnit>` here. The HTTP calls are replaced
    by what they contribute: `createSession` by the token it would hand back, `createRecord` by
    appending the post to `posts`. */
module Bluesky {
  import opened Wrappers
  import opened Decisions
  import Text

  newtype CodeUnit = x: int | 0 <= x < 0x1_0000

  type Post = seq<CodeUnit>

  // ---------------------------------------------------------------- UTF-16

  /** The code units of one character: itself below U+10000, a surrogate pair above. */
  function EncodeChar(c: char): (r: seq<CodeUnit>)
    ensures 1 <= |r| <= 2
  {
    var v := c as int;
    if v < 0x1_0000 then [v as CodeUnit]
    else [(0xD800 + (v - 0x1_0000) / 0x400) as CodeUnit, (0xDC00 + (v - 0x1_0000) % 0x400) as CodeUnit]
  }

  /** A Kotlin string's code units. */
  function Utf16(s: string): (r: seq<CodeUnit>)
    ensures |r| >= |s|
  {
    if s == [] then [] else EncodeChar(s[0]) + Utf16(s[1..])
  }

  predicate IsHigh(u: CodeUnit) { 0xD800 <= u < 0xDC00 }
  predicate IsLow(u: CodeUnit) { 0xDC00 <= u < 0xE000 }

  /** Reading code units back as characters; None at an unpaired surrogate. */
  function Decode(units: seq<CodeUnit>): Option<string>
    decreases |units|
  {
    if units == [] then Some("")
    else if IsLow(units[0]) then None
    else if IsHigh(units[0]) then
      if |units| < 2 || !IsLow(units[1]) then None
      else
        var v := 0x1_0000 + (units[0] as int - 0xD800) * 0x400 + (units[1] as int - 0xDC00);
        match Decode(units[2..])
        case None => None
        case Some(rest) => Some([v as char] + rest)
    else
      match Decode(units[1..])
      case None => None
      case Some(rest) => Some([units[0] as int as char] + rest)
  }

  /** Encoding is undone by decoding. */
  lemma {:induction false} DecodeUtf16(s: string)
    ensures Decode(Utf16(s)) == Some(s)
  {
    if s != [] {
      var units := Utf16(s);
      var head := EncodeChar(s[0]);
      DecodeUtf16(s[1..]);
      assert units == head + Utf16(s[1..]);
      assert units[|head|..] == Utf16(s[1..]);
      var v := s[0] as int;
      assert v < 0xD800 || 0xE000 <= v < 0x11_0000;
      if v >= 0x1_0000 {
        var w := v - 0x1_0000;
        assert (w / 0x400) * 0x400 + w % 0x400 == w;
        assert IsHigh(units[0]) && IsLow(units[1]);
        assert 0x1_0000 + (units[0] as int - 0xD800) * 0x400 + (units[1] as int - 0xDC00) == v;
        assert units[2..] == Utf16(s[1..]);
      } else {
        assert units[0] as int == v;
        assert !IsHigh(units[0]) && !IsLow(units[0]);
        assert units[1..] == Utf16(s[1..]);
      }
      assert [s[0]] + s[1..] == s;
    }
  }

  lemma {:induction false} Utf16Concat(a: string, b: string)
    ensures Utf16(a + b) == Utf16(a) + Utf16(b)
  {
    if a != [] {
      assert (a + b)[1..] == a[1..] + b;
      assert (a + b)[0] == a[0];
      Utf16Concat(a[1..], b);
    } else {
      assert a + b == b;
    }
  }

  // ---------------------------------------------------------------- formatting

  /** The emoji of a category, as the code units the source writes. */
  function Emoji(c: Category): (r: seq<CodeUnit>)
    ensures |r| == 2
  {
    match c
    case CycleLane => [0xD83D, 0xDEB2]
    case TrafficFilter => [0xD83D, 0xDEA7]
    case Ltn => [0xD83D, 0xDEA7]
    case PedestrianCrossing => [0xD83D, 0xDEB6]
    case SpeedLimit => [0x26A0, 0xFE0F]
    case BusLane => [0xD83D, 0xDE8C]
    case SchoolStreet => [0xD83C, 0xDFEB]
    case _ => [0xD83D, 0xDEF4]
  }

  /** The emoji as characters: bicycle, construction sign, pedestrian, warning sign with the
      emoji presentation selector, bus, school, and the motor scooter for everything else. */
  function EmojiText(c: Category): string {
    match c
    case CycleLane => "\U{1F6B2}"
    case TrafficFilter => "\U{1F6A7}"
    case Ltn => "\U{1F6A7}"
    case PedestrianCrossing => "\U{1F6B6}"
    case SpeedLimit => "\U{26A0}\U{FE0F}"
    case BusLane => "\U{1F68C}"
    case SchoolStreet => "\U{1F3EB}"
    case _ => "\U{1F6F4}"
  }

  /** The source's code units spell those characters. */
  lemma EmojiSpells(c: Category)
    ensures Emoji(c) == Utf16(EmojiText(c))
  {
    var t := EmojiText(c);
    assert Utf16(t) == EncodeChar(t[0]) + Utf16(t[1..]);
    if c == SpeedLimit {
      assert Utf16(t[1..]) == EncodeChar(t[1]) + Utf16(t[1..][1..]);
      assert t[1..][1..] == [];
    } else {
      assert t[1..] == [];
    }
  }

  /** Traffic filters and low-traffic neighbourhoods share a sign; road closures, pavement
      widening and other schemes share the default; the other six categories are told apart. */
  lemma EmojiClasses()
    ensures Emoji(TrafficFilter) == Emoji(Ltn)
    ensures Emoji(RoadClosure) == Emoji(PavementWidening) == Emoji(OtherActiveTravel)
    ensures forall a, b :: a != b && Emoji(a) == Emoji(b) ==>
              {a, b} <= {TrafficFilter, Ltn} || {a, b} <= {RoadClosure, PavementWidening, OtherActiveTravel}
  {
  }

  /** The text after the emoji: a space, the council name, a blank line, the summary, a blank
      line and the meeting URL. */
  function Body(d: Decision): string {
    " " + d.councilName + "\n\n" + d.summary + "\n\n" + d.meetingUrl
  }

  /** The post before the length cap. */
  function Draft(d: Decision): Post {
    Emoji(d.category) + Utf16(Body(d))
  }

  const Limit := 300
  const Ellipsis: seq<CodeUnit> := [0x2E, 0x2E, 0x2E]

  /** `formatPost`. */
  function FormatPost(d: Decision): (r: Post)
    ensures |r| <= Limit
  {
    var post := Draft(d);
    if |post| > Limit then post[..297] + Ellipsis else post
  }

  /** A draft within the limit is posted as it is; a longer one is cut to 297 units and given
      "...", so it has exactly 300. */
  lemma Truncation(d: Decision)
    ensures |Draft(d)| <= Limit ==> FormatPost(d) == Draft(d)
    ensures |Draft(d)| > Limit ==> (|FormatPost(d)| == Limit && FormatPost(d)[..297] == Draft(d)[..297]
                                   && FormatPost(d)[297..] == Utf16("..."))
  {
    if |Draft(d)| > Limit {
      assert FormatPost(d)[297..] == Ellipsis;
    }
  }

  /** An untruncated post reads as the category's emoji followed by the body text. */
  lemma PostLayout(d: Decision)
    requires |Draft(d)| <= Limit
    ensures Decode(FormatPost(d)) == Some(EmojiText(d.category) + Body(d))
  {
    EmojiSpells(d.category);
    Utf16Concat(EmojiText(d.category), Body(d));
    DecodeUtf16(EmojiText(d.category) + Body(d));
  }

  // ---------------------------------------------------------------- publishing

  /** The decisions `publishAll` posts: those scoring at least the minimum, in order. */
  function Relevant(decisions: seq<Decision>, minScore: int): seq<Decision> {
    if decisions == [] then []
    else Relevant(decisions[..|decisions| - 1], minScore)
         + (if decisions[|decisions| - 1].relevanceScore >= minScore then [decisions[|decisions| - 1]] else [])
  }

  /** The filter keeps order: it works piecewise, one decision at a time. */
  lemma {:induction false} RelevantConcat(a: seq<Decision>, b: seq<Decision>, minScore: int)
    ensures Relevant(a + b, minScore) == Relevant(a, minScore) + Relevant(b, minScore)
    decreases |b|
  {
    if b == [] {
      assert a + b == a;
    } else {
      assert (a + b)[..|a + b| - 1] == a + b[..|b| - 1];
      RelevantConcat(a, b[..|b| - 1], minScore);
    }
  }

  /** Exactly the decisions scoring at least the minimum are kept. */
  lemma {:induction false} RelevantMembers(decisions: seq<Decision>, minScore: int)
    ensures forall d :: d in Relevant(decisions, minScore) <==> d in decisions && d.relevanceScore >= minScore
    decreases |decisions|
  {
    if decisions != [] {
      var init := decisions[..|decisions| - 1];
      RelevantMembers(init, minScore);
      assert decisions == init + [decisions[|decisions| - 1]];
    }
  }

  /** The posts `publishAll` makes, in order. */
  function Posts(decisions: seq<Decision>): seq<Post> {
    seq(|decisions|, i requires 0 <= i < |decisions| => FormatPost(decisions[i]))
  }

  lemma PostsPrefix(decisions: seq<Decision>, i: nat)
    requires i < |decisions|
    ensures Posts(decisions[..i + 1]) == Posts(decisions[..i]) + [FormatPost(decisions[i])]
  {
  }

  /** The publisher. `session` is the `accessJwt` a `createSession` call answers with (None when
      the answer has none); `posts` are the records created so far. */
  class Publisher {
    const minRelevanceScore: int
    const session: Option<string>
    var accessToken: Option<string>
    var posts: seq<Post>

    constructor(minRelevanceScore: int, session: Option<string>)
      ensures this.minRelevanceScore == minRelevanceScore && this.session == session
      ensures accessToken == None && posts == []
    {
      this.minRelevanceScore := minRelevanceScore;
      this.session := session;
      accessToken := None;
      posts := [];
    }

    /** Whether posting can succeed: a token is held or a session would give one. */
    predicate CanPost()
      reads this
    {
      accessToken.Some? || session.Some?
    }

    /** `ensureAuthenticated`: nothing once a token is held, otherwise the session's token. */
    method EnsureAuthenticated()
      modifies this
      ensures accessToken == (if old(accessToken).Some? then old(accessToken) else session)
      ensures posts == old(posts)
    {
      if accessToken.Some? {
        return;
      }
      accessToken := session;
    }

    /** `createPost`: fails without a token, otherwise creates the record. */
    method CreatePost(text: Post) returns (ok: bool)
      modifies this
      ensures ok == accessToken.Some? && accessToken == old(accessToken)
      ensures posts == old(posts) + (if ok then [text] else [])
    {
      if accessToken.None? {
        return false;
      }
      posts := posts + [text];
      ok := true;
    }

    /** `publish`; `ok` is false where the source throws. */
    method Publish(decision: Decision) returns (ok: bool)
      modifies this
      ensures ok == old(CanPost()) && CanPost() == old(CanPost())
      ensures accessToken == (if old(accessToken).Some? then old(accessToken) else session)
      ensures posts == old(posts) + (if ok then [FormatPost(decision)] else [])
    {
      EnsureAuthenticated();
      var text := FormatPost(decision);
      ok := CreatePost(text);
    }

    /** `publishAll`: the relevant decisions in order, stopping at the first failure. Whether
        they can be posted is settled before the first one, so all of them are posted or none. */
    method PublishAll(decisions: seq<Decision>) returns (ok: bool)
      modifies this
      ensures CanPost() == old(CanPost())
      ensures ok == (old(CanPost()) || Relevant(decisions, minRelevanceScore) == [])
      ensures accessToken == (if Relevant(decisions, minRelevanceScore) == [] || old(accessToken).Some? then old(accessToken)
                              else session)
      ensures posts == old(posts) + (if old(CanPost()) then Posts(Relevant(decisions, minRelevanceScore)) else [])
    {
      var relevant := Relevant(decisions, minRelevanceScore);
      ok := true;
      for i := 0 to |relevant|
        invariant CanPost() == old(CanPost())
        invariant accessToken == (if i == 0 || old(accessToken).Some? then old(accessToken) else session)
        invariant old(CanPost()) ==> ok && posts == old(posts) + Posts(relevant[..i])
        invariant !old(CanPost()) ==> posts == old(posts) && ok && i == 0
      {
        ok := Publish(relevant[i]);
        if !ok {
          return;
        }
        PostsPrefix(relevant, i);
        Text.Assoc(old(posts), Posts(relevant[..i]), [FormatPost(relevant[i])]);
      }
      assert relevant[..|relevant|] == relevant;
    }
  }
}
