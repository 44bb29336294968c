/**
 * The Gemini enrichment agent's handling of model replies: the Markdown code-fence
 * unwrapping and the fallback value each method returns when the model is missing, the
 * call fails or the reply is not JSON. The model call and `json.loads` are oracles.
 */
module GeminiAgent {
  import opened Wrappers
  import opened JsonData
  import opened Text

  /** One model call: an exception (including a missing model), or the reply's text. */
  datatype Reply = Failed(message: string) | Replied(text: string)

  /** `json.loads`: the parsed value, or None for a `JSONDecodeError`. */
  type JsonParser = string -> Option<Json>

  const Fence: string := "```"

  /** No fence starts anywhere in `r`. */
  predicate NoFence(r: string) {
    forall i :: 0 <= i <= |r| ==> !StartsWith(r[i..], Fence)
  }

  /** `text.split("```")[1]` for a text that starts with a fence: everything up to the next fence. */
  function AfterFirstFence(t: string): (r: string)
    requires StartsWith(t, Fence)
    ensures |r| <= |t| - 3 && r == t[3..3 + |r|]
    ensures NoFence(r)
  {
    var rest := t[3..];
    var j := Find(rest, Fence);
    InfixNoStart(rest, 0, j, Fence);
    assert rest[0..j] == rest[..j] == t[3..3 + j];
    rest[..j]
  }

  /**
   * The unwrapping shared by the three JSON-returning methods: strip; when the text opens a
   * code fence, keep the segment up to the next fence, drop a leading `json`, strip again.
   */
  function UnwrapFence(text: string): string {
    var t := Strip(text);
    if StartsWith(t, Fence) then
      var segment := AfterFirstFence(t);
      Strip(if StartsWith(segment, "json") then segment[4..] else segment)
    else t
  }

  /** Stripping only takes characters away from the ends, so it creates no fence. */
  lemma StripKeepsNoFence(s: string)
    requires NoFence(s)
    ensures NoFence(Strip(s))
  {
    var l := TrimLeft(s, Whitespace);
    var r := Strip(s);
    var off := |s| - |l|;
    assert r == l[..|r|] && l == s[off..];
    assert r == s[off..off + |r|];
    InfixNoStart(s, off, off + |r|, Fence);
  }

  /** A fenced reply never leaves a fence in what is handed to the parser. */
  lemma UnwrappedHasNoFence(text: string)
    requires StartsWith(Strip(text), Fence)
    ensures NoFence(UnwrapFence(text))
  {
    var segment := AfterFirstFence(Strip(text));
    if StartsWith(segment, "json") {
      InfixNoStart(segment, 4, |segment|, Fence);
      assert segment[4..|segment|] == segment[4..];
    }
    var inner := if StartsWith(segment, "json") then segment[4..] else segment;
    StripKeepsNoFence(inner);
  }

  /** Unfenced text is only stripped. */
  lemma UnfencedIsStripped(text: string)
    requires !StartsWith(Strip(text), Fence)
    ensures UnwrapFence(text) == Strip(text)
  {
  }

  /** `Find` returns the first index at which `sub` starts. */
  lemma FindIsFirst(s: string, sub: string, k: nat)
    requires k < |s| && StartsWith(s[k..], sub)
    requires forall i :: 0 <= i < k ==> !StartsWith(s[i..], sub)
    ensures Find(s, sub) == k
  {
    var j := Find(s, sub);
    assert !(j > k);
  }

  /** The characters before the fence in `json<body>```` are not backticks. */
  lemma NoBacktickBeforeFence(body: string)
    requires '`' !in body
    ensures forall i :: 0 <= i < 4 + |body| ==> ("json" + body + Fence)[i] != '`'
  {
    var rest := "json" + body + Fence;
    forall i | 0 <= i < 4 + |body| ensures rest[i] != '`' {
      if i >= 4 {
        assert rest[i] == body[i - 4];
      } else {
        assert rest[i] == "json"[i];
      }
    }
  }

  /** No fence starts at a character that is not a backtick. */
  lemma NoFenceBeforeBacktick(s: string, k: nat)
    requires k <= |s| && forall i :: 0 <= i < k ==> s[i] != '`'
    ensures forall i :: 0 <= i < k ==> !StartsWith(s[i..], Fence)
  {
    forall i | 0 <= i < k ensures !StartsWith(s[i..], Fence) {
      assert s[i..][0] == s[i];
    }
  }

  /** In `json<body>```` with a backtick-free body the first fence follows the body. */
  lemma FirstFenceAfterBody(body: string)
    requires '`' !in body
    ensures Find("json" + body + Fence, Fence) == 4 + |body|
  {
    var rest := "json" + body + Fence;
    var k := 4 + |body|;
    assert rest[k..] == Fence;
    NoBacktickBeforeFence(body);
    NoFenceBeforeBacktick(rest, k);
    FindIsFirst(rest, Fence, k);
  }

  /** Wrapping a backtick-free body in a `json` fence and unwrapping it gives the stripped body back. */
  lemma FenceRoundTrip(body: string)
    requires '`' !in body
    ensures UnwrapFence(Fence + "json" + body + Fence) == Strip(body)
  {
    var t := Fence + "json" + body + Fence;
    var rest := "json" + body + Fence;
    assert t == Fence + rest && t[3..] == rest;
    assert t[0] == '`' && t[|t| - 1] == '`';
    StripCharsKeeps(t, Whitespace);
    FirstFenceAfterBody(body);
    assert rest[..4 + |body|] == "json" + body;
    var segment := AfterFirstFence(t);
    assert segment == "json" + body;
    assert segment[4..] == body;
  }

  /** `get_content_enrichment`. */
  function ContentEnrichment(configured: bool, reply: Reply, parse: JsonParser): (r: Json)
    ensures !configured ==> r == JObj(map["status" := JStr("unavailable"), "message" := JStr("Gemini API not configured")])
    ensures configured && reply.Failed? ==> r == JObj(map["status" := JStr("error"), "message" := JStr(reply.message)])
    ensures configured && reply.Replied? ==> (
      match parse(UnwrapFence(reply.text))
      case Some(data) => r == JObj(map["status" := JStr("success"), "source" := JStr("gemini"), "data" := data])
      case None => r == JObj(map["status" := JStr("error"), "message" := JStr("Failed to parse enriched data")]))
  {
    if !configured then JObj(map["status" := JStr("unavailable"), "message" := JStr("Gemini API not configured")])
    else
      match reply
      case Failed(msg) => JObj(map["status" := JStr("error"), "message" := JStr(msg)])
      case Replied(text) =>
        match parse(UnwrapFence(text))
        case Some(data) => JObj(map["status" := JStr("success"), "source" := JStr("gemini"), "data" := data])
        case None => JObj(map["status" := JStr("error"), "message" := JStr("Failed to parse enriched data")])
  }

  /** The status of an enrichment is always one of the three, and a model-less agent never reports success. */
  lemma EnrichmentStatus(configured: bool, reply: Reply, parse: JsonParser)
    ensures var r := ContentEnrichment(configured, reply, parse);
      r.JObj? && "status" in r.fields && r.fields["status"] in {JStr("success"), JStr("error"), JStr("unavailable")}
    ensures !configured ==> ContentEnrichment(configured, reply, parse).fields["status"] == JStr("unavailable")
    ensures ContentEnrichment(configured, reply, parse).fields["status"] == JStr("success") ==>
      configured && reply.Replied? && parse(UnwrapFence(reply.text)).Some?
  {
  }

  /** The template explanation used when the model call fails. */
  function TemplateExplanation(contentType: string, genres: seq<string>, moods: seq<string>): (r: string)
    ensures StartsWith(r, "This " + contentType + " with " + Join(", ", genres) + " genres")
    ensures EndsWith(r, "matches your " + Join(", ", moods) + " preference.")
  {
    var head := "This " + contentType + " with " + Join(", ", genres) + " genres";
    var last := "matches your " + Join(", ", moods) + " preference.";
    ConcatEnds3(head, " ", last);
    head + " " + last
  }

  /**
   * `generate_personalized_recommendation`: the stripped reply, or the template when the call
   * fails (as it does when no model is configured, since the method does not check).
   */
  function PersonalizedRecommendation(configured: bool, contentType: string, genres: seq<string>,
                                      moods: seq<string>, reply: Reply): (r: string)
    ensures !configured || reply.Failed? ==> r == TemplateExplanation(contentType, genres, moods)
    ensures configured && reply.Replied? ==> r == Strip(reply.text)
  {
    if configured && reply.Replied? then Strip(reply.text) else TemplateExplanation(contentType, genres, moods)
  }

  /** `search_catalog_with_ai`: the parsed reply, or `[]` on any failure. */
  function SearchCatalogWithAi(configured: bool, reply: Reply, parse: JsonParser): (r: Json)
    ensures !configured || reply.Failed? ==> r == JArr([])
    ensures configured && reply.Replied? ==> r == parse(UnwrapFence(reply.text)).GetOr(JArr([]))
  {
    if !configured || reply.Failed? then JArr([]) else parse(UnwrapFence(reply.text)).GetOr(JArr([]))
  }

  /** The preferences `analyze_user_preferences` falls back to. */
  const DefaultPreferences: Json := JObj(map[
    "favorite_genres" := JArr([]), "mood_preference" := JArr([]), "content_type_preference" := JArr([]),
    "inferred_taste" := JStr("Unable to analyze"), "recommendation_strategy" := JStr("Start with popular titles")])

  /** `analyze_user_preferences`: the parsed reply, or the fixed default on any failure. */
  function AnalyzeUserPreferences(configured: bool, reply: Reply, parse: JsonParser): (r: Json)
    ensures !configured || reply.Failed? ==> r == DefaultPreferences
    ensures configured && reply.Replied? ==> r == parse(UnwrapFence(reply.text)).GetOr(DefaultPreferences)
  {
    if !configured || reply.Failed? then DefaultPreferences else parse(UnwrapFence(reply.text)).GetOr(DefaultPreferences)
  }

  /** The three JSON methods hand the parser the same unwrapped text, so they agree on which replies parse. */
  lemma JsonMethodsAgree(reply: Reply, parse: JsonParser)
    requires reply.Replied? && parse(UnwrapFence(reply.text)).Some?
    ensures SearchCatalogWithAi(true, reply, parse) == AnalyzeUserPreferences(true, reply, parse)
    ensures ContentEnrichment(true, reply, parse).fields["data"] == SearchCatalogWithAi(true, reply, parse)
  {
  }
}
