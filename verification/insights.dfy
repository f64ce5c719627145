/**
 * Post-processing of the language model's reply (insights/llm_client.py):
 * choosing the provider and key variable, cleaning the reply text down to
 * a JSON object, normalising its `risks` and `key_levels` fields, and the
 * fallback insight. The provider SDKs and the request itself are outside
 * the model: the reply text and the SDKs' availability are arguments, and
 * `json.loads`, `json.dumps`, `str()` and the float formats are the
 * functions of a `Codec`.
 */
module Insights {
  import opened Wrappers
  import opened Text
  import opened Json
  import opened Config
  import opened Analysis

  /** The opaque conversions the client relies on. */
  datatype Codec = Codec(
    parse: string -> Option<Json>,   // `json.loads`; `None` where it raises `JSONDecodeError`
    dumps: Json -> string,           // `json.dumps`
    str: Json -> string,             // `str()` of a non-string value
    grouped: real -> string,         // `f"{v:,.2f}"`
    fixed: real -> string)           // `f"{v:.2f}"`

  /** What `generate` returns. Recommendation and rationale are whatever JSON the reply held. */
  datatype InsightResult = InsightResult(recommendation: Json, rationale: Json, risks: string,
                                         keyLevels: seq<string>, rawText: string)

  /** `data.get` on a parsed reply that is not a dict raises. */
  datatype InsightError = NotAnObject(data: Json)

  // ---- client selection -------------------------------------------------------------------

  /** What the constructor settles: the provider, the key variable, the key and whether a client exists. */
  datatype ClientSetup = ClientSetup(provider: string, keyEnv: string, apiKey: string, hasClient: bool)

  /** `__init__`: `openAiSdk` / `geminiSdk` say whether the optional SDK imported. */
  function SetupClient(config: LlmConfig, env: Env, openAiSdk: bool, geminiSdk: bool): (c: ClientSetup)
    ensures c.provider == Lower(if config.provider == "" then "openai" else config.provider)
    ensures c.provider == "gemini" && (config.apiKeyEnv == "" || config.apiKeyEnv == "OPENAI_API_KEY") ==>
              c.keyEnv == "GEMINI_API_KEY"
    ensures !(c.provider == "gemini" && (config.apiKeyEnv == "" || config.apiKeyEnv == "OPENAI_API_KEY")) ==>
              c.keyEnv == config.apiKeyEnv
    ensures c.apiKey == DictGet(env, c.keyEnv, "")
    ensures c.hasClient <==> c.apiKey != "" && ((c.provider == "openai" && openAiSdk) || (c.provider == "gemini" && geminiSdk))
  {
    var provider := Lower(if config.provider == "" then "openai" else config.provider);
    var keyEnv := if provider == "gemini" && (config.apiKeyEnv == "" || config.apiKeyEnv == "OPENAI_API_KEY")
                  then "GEMINI_API_KEY" else config.apiKeyEnv;
    var apiKey := DictGet(env, keyEnv, "");
    var hasClient := if provider == "openai" then openAiSdk && apiKey != ""
                     else if provider == "gemini" then geminiSdk && apiKey != ""
                     else false;
    ClientSetup(provider, keyEnv, apiKey, hasClient)
  }

  /** Under the default configuration the client reads `GEMINI_API_KEY` and exists iff that key is set and non-empty. */
  lemma DefaultSetupUsesGeminiKey(self: PipelineConfig, env: Env, expand: string -> string, openAiSdk: bool, geminiSdk: bool)
    requires forall name :: name in env ==> name !in {"MERLIN_LLM_PROVIDER", "MERLIN_LLM_KEY_ENV"}
    ensures var c := SetupClient(WithEnvOverrides(self, env, expand).llm, env, openAiSdk, geminiSdk);
            && c.provider == "gemini" && c.keyEnv == "GEMINI_API_KEY"
            && (c.hasClient <==> geminiSdk && "GEMINI_API_KEY" in env && env["GEMINI_API_KEY"] != "")
  {
    assert "MERLIN_LLM_PROVIDER" !in env && "MERLIN_LLM_KEY_ENV" !in env;
    assert Lower("gemini") == "gemini";
  }

  // ---- cleaning the reply ---------------------------------------------------------------

  /** The fence stage: the stripped content between the first opening fence and the last fence, if later. */
  function Unfence(s: string): (r: string)
    ensures IsSubstring(r, s)
    ensures Contains(s, "```json") && RFind(s, "```") > Find(s, "```json") + 7 ==>
              r == Strip(s[Find(s, "```json") + 7..RFind(s, "```")])
    ensures !Contains(s, "```json") && Contains(s, "```") && RFind(s, "```") > Find(s, "```") + 3 ==>
              r == Strip(s[Find(s, "```") + 3..RFind(s, "```")])
    ensures Contains(s, "```json") && RFind(s, "```") <= Find(s, "```json") + 7 ==> r == s
    ensures !Contains(s, "```json") && Contains(s, "```") && RFind(s, "```") <= Find(s, "```") + 3 ==> r == s
    ensures !Contains(s, "```") ==> r == s
  {
    if Contains(s, "```json") then
      var start := Find(s, "```json") + 7;
      var end := RFind(s, "```");
      if end > start then StripOfSlice(s, start, end); Strip(s[start..end]) else Same(s); s
    else if Contains(s, "```") then
      var start := Find(s, "```") + 3;
      var end := RFind(s, "```");
      if end > start then StripOfSlice(s, start, end); Strip(s[start..end]) else Same(s); s
    else
      Same(s); s
  }

  lemma Same(s: string)
    ensures IsSubstring(s, s)
  {
    assert s == s[0..|s|];
  }

  lemma StripOfSlice(s: string, i: int, j: int)
    requires 0 <= i <= j <= |s|
    ensures IsSubstring(Strip(s[i..j]), s)
  {
    var t := Strip(s[i..j]);
    var a, b :| TrimmedSlice(s[i..j], t, a, b);
    assert IsSubstring(t, s[i..j]);
    assert IsSubstring(s[i..j], s);
    SubstringTransitive(t, s[i..j], s);
  }

  /** The brace stage: text not opening with `{` is cut from its first `{` to its last `}`, when in that order. */
  function CutBraces(s: string): (r: string)
    ensures IsSubstring(r, s)
    ensures StartsWith(s, "{") ==> r == s
    ensures !StartsWith(s, "{") && Find(s, "{") >= 0 && RFind(s, "}") >= Find(s, "{") ==>
              r == s[Find(s, "{")..RFind(s, "}") + 1] && StartsWith(r, "{") && r[|r| - 1] == '}'
    ensures !StartsWith(s, "{") && !(Find(s, "{") >= 0 && RFind(s, "}") >= Find(s, "{")) ==> r == s
  {
    if !StartsWith(s, "{") then
      var open := Find(s, "{");
      var close := RFind(s, "}") + 1;
      if open >= 0 && close > open then
        assert s[open..close][..1] == s[open..open + 1];
        assert s[close - 1..close] == "}";
        assert s[open..close][close - 1 - open] == s[close - 1];
        s[open..close]
      else Same(s); s
    else Same(s); s
  }

  /** The text `json.loads` is given: stripped, unfenced, cut to its braces. */
  function CleanReply(text: string): (r: string)
    ensures IsSubstring(r, Strip(text))
  {
    var s := Strip(text);
    var u := Unfence(s);
    var r := CutBraces(u);
    SubstringTransitive(r, u, s);
    r
  }

  /** Cutting to the braces a second time changes nothing. */
  lemma CutBracesIdempotent(s: string)
    ensures CutBraces(CutBraces(s)) == CutBraces(s)
  {
  }

  /** A reply whose stripped text opens with `{` and holds no fence is passed on as stripped. */
  lemma PlainObjectPassesThrough(text: string)
    requires StartsWith(Strip(text), "{") && !Contains(Strip(text), "```")
    ensures CleanReply(text) == Strip(text)
  {
  }

  /** `"```"` occurs at most once. */
  predicate AtMostOneFence(s: string)
  {
    forall i, j :: 0 <= i < |s| && 0 <= j < |s| && OccursAt(s, "```", i) && OccursAt(s, "```", j) ==> i == j
  }

  /** A lone fence is left in place: the last fence is the first, so there is nothing after it to cut to. */
  lemma LoneFenceUnchanged(s: string)
    requires AtMostOneFence(s)
    ensures Unfence(s) == s
  {
    if Contains(s, "```json") {
      var p := Find(s, "```json");
      assert s[p..p + 3] == s[p..p + 7][..3];
      assert OccursAt(s, "```", p);
      assert RFind(s, "```") == p;
    } else if Contains(s, "```") {
      assert RFind(s, "```") == Find(s, "```");
    }
  }

  // ---- normalising the fields -------------------------------------------------------------

  /** A value as an f-string shows it: a string as itself, anything else through `str()`. */
  function Display(v: Json, codec: Codec): (r: string)
    ensures v.JStr? ==> r == v.s
  {
    if v.JStr? then v.s else codec.str(v)
  }

  /** A value as `json.dumps` would write it, strings as themselves. */
  function Dumped(v: Json, codec: Codec): (r: string)
    ensures v.JStr? ==> r == v.s
  {
    if v.JStr? then v.s else codec.dumps(v)
  }

  /** One `- item` line per list element. */
  function ListRiskLines(items: seq<Json>, codec: Codec): (lines: seq<string>)
    ensures |lines| == |items| && forall i :: 0 <= i < |items| ==> lines[i] == "- " + Dumped(items[i], codec)
  {
    seq(|items|, i requires 0 <= i < |items| => "- " + Dumped(items[i], codec))
  }

  /** One `key: value` line per dict entry, in insertion order. */
  function DictRiskLines(fields: seq<(string, Json)>, codec: Codec): (lines: seq<string>)
    ensures |lines| == |fields| && forall i :: 0 <= i < |fields| ==> lines[i] == fields[i].0 + ": " + Dumped(fields[i].1, codec)
  {
    seq(|fields|, i requires 0 <= i < |fields| => fields[i].0 + ": " + Dumped(fields[i].1, codec))
  }

  /** `_normalize_risks`. */
  function NormalizeRisks(risks: Json, codec: Codec): (r: string)
    ensures risks.JStr? ==> r == risks.s
    ensures risks.JArr? ==> r == Join("\n", ListRiskLines(risks.items, codec))
    ensures risks.JObj? ==> r == Join("\n", DictRiskLines(risks.fields, codec))
    ensures !risks.JStr? && !risks.JArr? && !risks.JObj? && !Truthy(risks) ==> r == ""
    ensures !risks.JStr? && !risks.JArr? && !risks.JObj? && Truthy(risks) ==> r == codec.str(risks)
  {
    match risks
    case JStr(s) => s
    case JArr(items) => Join("\n", ListRiskLines(items, codec))
    case JObj(fields) => Join("\n", DictRiskLines(fields, codec))
    case _ => if Truthy(risks) then codec.str(risks) else ""
  }

  /** A non-empty list of single-line strings gives back one `- item` line per element, in order. */
  lemma RiskListLines(items: seq<string>, codec: Codec)
    requires |items| >= 1
    requires forall k, i :: 0 <= k < |items| && 0 <= i < |items[k]| ==> items[k][i] != '\n'
    ensures SplitOn(NormalizeRisks(JArr(seq(|items|, k requires 0 <= k < |items| => JStr(items[k]))), codec), '\n')
            == seq(|items|, k requires 0 <= k < |items| => "- " + items[k])
  {
    var js := seq(|items|, k requires 0 <= k < |items| => JStr(items[k]));
    var lines := seq(|items|, k requires 0 <= k < |items| => "- " + items[k]);
    assert ListRiskLines(js, codec) == lines;
    forall k, i | 0 <= k < |lines| && 0 <= i < |lines[k]| ensures lines[k][i] != '\n' {
      if i >= 2 {
        assert lines[k][i] == items[k][i - 2];
      }
    }
    SplitJoin(lines, '\n');
  }

  /** `a.get(key)` is a truthy value. */
  predicate TruthyAt(fields: seq<(string, Json)>, key: string)
  {
    Lookup(fields, key).Some? && Truthy(Lookup(fields, key).value)
  }

  /** `a.get(k1) or a.get(k2) or ... or last`: the first truthy value under the keys, else `last`. */
  function FirstTruthy(fields: seq<(string, Json)>, keys: seq<string>, last: Json): (r: Json)
    ensures (forall k :: 0 <= k < |keys| ==> !TruthyAt(fields, keys[k])) ==> r == last
    ensures forall k :: 0 <= k < |keys| && TruthyAt(fields, keys[k]) && (forall m :: 0 <= m < k ==> !TruthyAt(fields, keys[m])) ==>
              r == Lookup(fields, keys[k]).value
    ensures r == last || exists k :: 0 <= k < |keys| && Lookup(fields, keys[k]) == Some(r) && Truthy(r)
  {
    FirstTruthyFrom(fields, keys, 0, last)
  }

  /** The same `or` chain over the keys from position `i` on. */
  function FirstTruthyFrom(fields: seq<(string, Json)>, keys: seq<string>, i: nat, last: Json): (r: Json)
    requires i <= |keys|
    ensures (forall k :: i <= k < |keys| ==> !TruthyAt(fields, keys[k])) ==> r == last
    ensures forall k :: i <= k < |keys| && TruthyAt(fields, keys[k]) && (forall m :: i <= m < k ==> !TruthyAt(fields, keys[m])) ==>
              r == Lookup(fields, keys[k]).value
    ensures r == last || exists k :: i <= k < |keys| && Lookup(fields, keys[k]) == Some(r) && Truthy(r)
    decreases |keys| - i
  {
    if i == |keys| then last
    else if TruthyAt(fields, keys[i]) then Lookup(fields, keys[i]).value
    else FirstTruthyFrom(fields, keys, i + 1, last)
  }

  /** The level's value as shown: numbers (and booleans, which Python counts as integers) in the grouped format. */
  function ValueText(v: Json, codec: Codec): (r: string)
    ensures v.JNum? ==> r == codec.grouped(v.x)
    ensures v.JStr? ==> r == v.s
  {
    match v
    case JNum(x) => codec.grouped(x)
    case JBool(b) => codec.grouped(if b then 1.0 else 0.0)
    case _ => Display(v, codec)
  }

  /** The `type: value` head of a dict level: `type` defaults to "level", the value to `price`, then "N/A". */
  function LevelHead(fields: seq<(string, Json)>, codec: Codec): string
  {
    Display(LookupOr(fields, "type", JStr("level")), codec) + ": "
      + ValueText(FirstTruthy(fields, ["value", "level"], LookupOr(fields, "price", JStr("N/A"))), codec)
  }

  /** The description of a dict level: the first truthy of its four description keys, else "". */
  function LevelNote(fields: seq<(string, Json)>): Json
  {
    FirstTruthy(fields, ["description", "desc", "note", "text"], JStr(""))
  }

  /** A description is shown when it is truthy and not blank once stripped. */
  predicate Shown(note: Json, codec: Codec)
  {
    Truthy(note) && Strip(Display(note, codec)) != ""
  }

  /** One key level as a line: strings as they are, dicts as `type: value[ - description]`, anything else through `str()`. */
  function KeyLevelLine(item: Json, codec: Codec): (r: string)
    ensures item.JStr? ==> r == item.s
    ensures item.JObj? && Shown(LevelNote(item.fields), codec) ==>
              r == LevelHead(item.fields, codec) + " - " + Display(LevelNote(item.fields), codec)
    ensures item.JObj? && !Shown(LevelNote(item.fields), codec) ==> r == LevelHead(item.fields, codec)
    ensures !item.JStr? && !item.JObj? ==> r == codec.str(item)
  {
    match item
    case JStr(s) => s
    case JObj(fields) =>
      var note := LevelNote(fields);
      if Shown(note, codec) then LevelHead(fields, codec) + " - " + Display(note, codec)
      else LevelHead(fields, codec)
    case _ => codec.str(item)
  }

  /** A dict with a `type` string and a non-zero numeric `value` and no description reads `type: <grouped value>`. */
  lemma NumericLevelLine(kind: string, x: real, codec: Codec)
    requires x != 0.0
    ensures KeyLevelLine(JObj([("type", JStr(kind)), ("value", JNum(x))]), codec) == kind + ": " + codec.grouped(x)
  {
    var fields := [("type", JStr(kind)), ("value", JNum(x))];
    LookupFirst(fields, "type", 0);
    LookupFirst(fields, "value", 1);
    assert TruthyAt(fields, ["value", "level"][0]);
    var keys := ["description", "desc", "note", "text"];
    forall k | 0 <= k < |keys| ensures !TruthyAt(fields, keys[k]) {
      assert Lookup(fields, keys[k]).None?;
    }
    assert LevelNote(fields) == JStr("");
  }

  /** `_normalize_key_levels`. */
  function NormalizeKeyLevels(levels: Json, codec: Codec): (r: seq<string>)
    ensures !Truthy(levels) ==> r == []
    ensures Truthy(levels) && levels.JArr? ==>
              |r| == |levels.items| && forall i :: 0 <= i < |r| ==> r[i] == KeyLevelLine(levels.items[i], codec)
    ensures Truthy(levels) && !levels.JArr? ==> r == [KeyLevelLine(levels, codec)]
  {
    if !Truthy(levels) then []
    else
      var items := if levels.JArr? then levels.items else [levels];
      seq(|items|, i requires 0 <= i < |items| => KeyLevelLine(items[i], codec))
  }

  /** A lone truthy value that is not a list (a non-empty dict, say) is treated as a one-element list. */
  lemma LoneValueIsOneLevel(item: Json, codec: Codec)
    requires Truthy(item) && !item.JArr?
    ensures NormalizeKeyLevels(item, codec) == NormalizeKeyLevels(JArr([item]), codec)
  {
    var listed := NormalizeKeyLevels(JArr([item]), codec);
    assert |listed| == 1 && listed[0] == KeyLevelLine(item, codec);
  }

  /** A list of strings comes back unchanged. */
  lemma StringLevelsUnchanged(levels: seq<string>, codec: Codec)
    ensures NormalizeKeyLevels(JArr(seq(|levels|, i requires 0 <= i < |levels| => JStr(levels[i]))), codec) == levels
  {
  }

  // ---- generate -----------------------------------------------------------------------------

  /** `_fallback_insight`: the scorer's recommendation, a fixed rationale, a hint naming the key to set. */
  function FallbackInsight(provider: string, bundle: SignalBundle, prompt: string, codec: Codec): (r: InsightResult)
    ensures r.recommendation == JStr(Label(bundle.regime.recommendation))
    ensures r.rationale == JStr("LLM client not configured; returning heuristic result.")
    ensures r.rawText == prompt
    ensures r.risks == (if provider == "openai" then "Set OPENAI_API_KEY" else "Set GEMINI_API_KEY") + " to enable neural insights."
    ensures |r.keyLevels| == 2 && r.keyLevels[0] == "Recent price: " + codec.fixed(bundle.meta.price)
    ensures |r.keyLevels| == 2 && r.keyLevels[1] == "200-period SMA"
  {
    var hint := if provider == "openai" then "Set OPENAI_API_KEY" else "Set GEMINI_API_KEY";
    InsightResult(
      JStr(Label(bundle.regime.recommendation)),
      JStr("LLM client not configured; returning heuristic result."),
      hint + " to enable neural insights.",
      ["Recent price: " + codec.fixed(bundle.meta.price), "200-period SMA"],
      prompt)
  }

  /** The dict `generate` falls back to when the cleaned reply is not JSON. */
  function UnparsedReply(bundle: SignalBundle, reply: string): Json
  {
    JObj([("recommendation", JStr(Label(bundle.regime.recommendation))),
          ("rationale", JStr(reply)),
          ("risks", JStr("Unable to parse structured risks.")),
          ("key_levels", JArr([]))])
  }

  /** What `json.loads` made of the cleaned reply, or the stand-in dict when it raised. */
  function ReplyData(bundle: SignalBundle, reply: string, codec: Codec): Json
  {
    match codec.parse(CleanReply(reply))
    case Some(d) => d
    case None => UnparsedReply(bundle, reply)
  }

  /** The insight read off the reply's dict, with `get` defaults and the two fields normalised. */
  function InsightFromData(data: Json, reply: string, codec: Codec): (r: Result<InsightResult, InsightError>)
    ensures r.Failure? <==> !data.JObj?
    ensures r.Success? ==> r.value.rawText == reply
    ensures r.Success? ==> r.value.risks == NormalizeRisks(LookupOr(data.fields, "risks", JStr("")), codec)
    ensures r.Success? ==> r.value.keyLevels == NormalizeKeyLevels(LookupOr(data.fields, "key_levels", JArr([])), codec)
    ensures r.Success? ==> r.value.recommendation == LookupOr(data.fields, "recommendation", JStr("NEUTRAL"))
    ensures r.Success? ==> r.value.rationale == LookupOr(data.fields, "rationale", JStr(reply))
    ensures r.Success? && Lookup(data.fields, "recommendation").Some? ==>
              r.value.recommendation == Lookup(data.fields, "recommendation").value
    ensures r.Success? && Lookup(data.fields, "rationale").Some? ==>
              r.value.rationale == Lookup(data.fields, "rationale").value
    ensures r.Success? && (forall i :: 0 <= i < |data.fields| ==> data.fields[i].0 != "recommendation") ==>
              r.value.recommendation == JStr("NEUTRAL")
    ensures r.Success? && (forall i :: 0 <= i < |data.fields| ==> data.fields[i].0 != "rationale") ==>
              r.value.rationale == JStr(reply)
  {
    if !data.JObj? then Failure(NotAnObject(data))
    else
      var fields := data.fields;
      Success(InsightResult(
        LookupOr(fields, "recommendation", JStr("NEUTRAL")),
        LookupOr(fields, "rationale", JStr(reply)),
        NormalizeRisks(LookupOr(fields, "risks", JStr("")), codec),
        NormalizeKeyLevels(LookupOr(fields, "key_levels", JArr([])), codec),
        reply))
  }

  /** A client is in use: one of the two providers, with a client built. */
  predicate Active(client: ClientSetup)
  {
    client.hasClient && (client.provider == "openai" || client.provider == "gemini")
  }

  /**
   * `generate` after the request: `reply` is the model's text. No client, a
   * provider other than openai or gemini, or an empty reply gives the
   * fallback; otherwise the cleaned reply is parsed and its fields normalised.
   */
  function Generate(client: ClientSetup, bundle: SignalBundle, prompt: string, reply: string, codec: Codec)
    : (r: Result<InsightResult, InsightError>)
    ensures !client.hasClient || reply == "" ==> r == Success(FallbackInsight(client.provider, bundle, prompt, codec))
    ensures Active(client) && reply != "" ==> r == InsightFromData(ReplyData(bundle, reply, codec), reply, codec)
  {
    if !client.hasClient then Success(FallbackInsight(client.provider, bundle, prompt, codec))
    else if client.provider != "openai" && client.provider != "gemini" then
      Success(FallbackInsight(client.provider, bundle, prompt, codec))
    else if reply == "" then Success(FallbackInsight(client.provider, bundle, prompt, codec))
    else InsightFromData(ReplyData(bundle, reply, codec), reply, codec)
  }

  /** A reply `json.loads` rejects yields the scorer's recommendation, the raw text as rationale and no key levels. */
  lemma UnparsableReplyFallsBack(client: ClientSetup, bundle: SignalBundle, prompt: string, reply: string, codec: Codec)
    requires Active(client) && reply != ""
    requires codec.parse(CleanReply(reply)).None?
    ensures var r := Generate(client, bundle, prompt, reply, codec);
            && r.Success?
            && r.value.recommendation == JStr(Label(bundle.regime.recommendation))
            && r.value.rationale == JStr(reply)
            && r.value.risks == "Unable to parse structured risks."
            && r.value.keyLevels == []
            && r.value.rawText == reply
  {
    assert ReplyData(bundle, reply, codec) == UnparsedReply(bundle, reply);
    InsightOfUnparsed(bundle, reply, codec);
  }

  /** The insight read off the stand-in dict. */
  lemma InsightOfUnparsed(bundle: SignalBundle, reply: string, codec: Codec)
    ensures InsightFromData(UnparsedReply(bundle, reply), reply, codec)
            == Success(InsightResult(JStr(Label(bundle.regime.recommendation)), JStr(reply),
                                     "Unable to parse structured risks.", [], reply))
  {
    UnparsedLookups(bundle, reply);
  }

  /** `get` on the stand-in dict finds each of the four entries it was built with. */
  lemma UnparsedLookups(bundle: SignalBundle, reply: string)
    ensures var fields := UnparsedReply(bundle, reply).fields;
            LookupOr(fields, "recommendation", JStr("NEUTRAL")) == JStr(Label(bundle.regime.recommendation)) &&
            LookupOr(fields, "rationale", JStr(reply)) == JStr(reply) &&
            LookupOr(fields, "risks", JStr("")) == JStr("Unable to parse structured risks.") &&
            LookupOr(fields, "key_levels", JArr([])) == JArr([])
  {
    var fields := UnparsedReply(bundle, reply).fields;
    LookupFirst(fields, "recommendation", 0);
    LookupFirst(fields, "rationale", 1);
    UnparsedLaterLookups(bundle, reply);
  }

  lemma UnparsedLaterLookups(bundle: SignalBundle, reply: string)
    ensures var fields := UnparsedReply(bundle, reply).fields;
            LookupOr(fields, "risks", JStr("")) == JStr("Unable to parse structured risks.") &&
            LookupOr(fields, "key_levels", JArr([])) == JArr([])
  {
    var fields := UnparsedReply(bundle, reply).fields;
    LookupFirst(fields, "risks", 2);
    LookupFirst(fields, "key_levels", 3);
  }
}
