/** AutoGroq's text helpers (AutoGroq/AutoGroq/utils/text_utils.py):
    `sanitize_text`, `normalize_name` and `normalize_config`. Each regular
    expression substitution there removes single characters of a class, so
    it is a character filter here. */
module TextUtils {
  import opened Base
  import opened PyJson

  // ---------------------------------------------------------------------
  // sanitize_text
  // ---------------------------------------------------------------------

  predicate IsAscii(c: char) { c as int <= 0x7F }

  /** The punctuation the second substitution keeps: . , ! ? : ; ' " - */
  predicate IsKeptPunctuation(c: char)
  {
    c == '.' || c == ',' || c == '!' || c == '?' || c == ':' || c == ';' || c == '\'' || c == '"' || c == '-'
  }

  /** The class `[a-zA-Z0-9\s.,!?:;'"-]`; `\s` on the ASCII text left by the
      first substitution is Python's whitespace. */
  predicate IsKept(c: char)
  {
    IsAsciiLetter(c) || IsDigit(c) || IsSpace(c) || IsKeptPunctuation(c)
  }

  /** The characters of `s` that satisfy `keep`, in order. */
  function Filter(s: string, keep: char -> bool): (r: string)
    ensures |r| <= |s|
    ensures forall c :: c in r <==> c in s && keep(c)
    decreases |s|
  {
    if s == [] then []
    else if keep(s[0]) then [s[0]] + Filter(s[1..], keep)
    else Filter(s[1..], keep)
  }

  /** `re.sub(r'[^\x00-\x7F]+', '', text)`. */
  function StripNonAscii(s: string): string
  {
    Filter(s, IsAscii)
  }

  /** `re.sub(r'[^a-zA-Z0-9\s.,!?:;\'"-]+', '', text)`. */
  function StripDisallowed(s: string): string
  {
    Filter(s, IsKept)
  }

  function SanitizeText(s: string): string
  {
    StripDisallowed(StripNonAscii(s))
  }

  /** Every character of the result is kept by the second class, and every
      character of the input that the class keeps survives. */
  lemma {:induction false} SanitizeTextOnlyKept(s: string)
    ensures forall c :: c in SanitizeText(s) <==> c in s && IsKept(c)
  {
  }

  /** The first pass never removes a character the second keeps, so one
      filter with the second class does the whole work. */
  lemma {:induction false} SanitizeTextOnePass(s: string)
    ensures SanitizeText(s) == Filter(s, IsKept)
    decreases |s|
  {
    if s != [] {
      SanitizeTextOnePass(s[1..]);
    }
  }

  /** Filtering a string whose characters all pass changes nothing. */
  lemma {:induction false} FilterAllKept(s: string, keep: char -> bool)
    requires forall i :: 0 <= i < |s| ==> keep(s[i])
    ensures Filter(s, keep) == s
    decreases |s|
  {
    if s != [] {
      FilterAllKept(s[1..], keep);
    }
  }

  /** Text made only of kept characters is unchanged. */
  lemma {:induction false} SanitizeTextKeepsClean(s: string)
    requires forall i :: 0 <= i < |s| ==> IsKept(s[i])
    ensures SanitizeText(s) == s
  {
    SanitizeTextOnePass(s);
    FilterAllKept(s, IsKept);
  }

  lemma {:induction false} SanitizeTextIdempotent(s: string)
    ensures SanitizeText(SanitizeText(s)) == SanitizeText(s)
  {
    var r := SanitizeText(s);
    SanitizeTextOnlyKept(s);
    assert forall i :: 0 <= i < |r| ==> r[i] in r;
    SanitizeTextKeepsClean(r);
  }

  // ---------------------------------------------------------------------
  // normalize_name
  // ---------------------------------------------------------------------

  /** `s.replace(from, to)` for a one-character pattern. */
  function ReplaceChar(s: string, from: char, to: char): (r: string)
    ensures |r| == |s|
    ensures forall i :: 0 <= i < |s| ==> r[i] == if s[i] == from then to else s[i]
  {
    seq(|s|, i requires 0 <= i < |s| => if s[i] == from then to else s[i])
  }

  /** `sanitize_text(name).lower().replace(' ', '_')`. */
  function NormalizeName(name: string): string
  {
    ReplaceChar(Lower(SanitizeText(name)), ' ', '_')
  }

  /** The normalised name has the sanitised name's length, no space and no
      upper-case letter, and each character is the sanitised one lowered,
      or '_' for a space. */
  lemma {:induction false} NormalizeNameShape(name: string)
    ensures var r := NormalizeName(name);
      && |r| == |SanitizeText(name)|
      && ' ' !in r
      && (forall i :: 0 <= i < |r| ==> !('A' <= r[i] <= 'Z'))
      && (forall i :: 0 <= i < |r| ==> r[i] == if SanitizeText(name)[i] == ' ' then '_' else LowerChar(SanitizeText(name)[i]))
  {
  }

  lemma {:induction false} SanitizeSpaced()
    ensures SanitizeText("a b") == "a b"
  {
    SanitizeTextKeepsClean("a b");
  }

  lemma {:induction false} SanitizeUnderscored()
    ensures SanitizeText("a_b") == "ab"
  {
    SanitizeTextOnePass("a_b");
    assert "a_b"[1..] == "_b" && "_b"[1..] == "b" && "b"[1..] == [];
    assert !IsKept('_');
    assert Filter("b", IsKept) == "b";
  }

  lemma {:induction false} NormalizeSpaced()
    ensures NormalizeName("a b") == "a_b"
  {
    SanitizeSpaced();
    var l := Lower("a b");
    assert LowerChar('a') == 'a' && LowerChar(' ') == ' ' && LowerChar('b') == 'b';
    assert l == "a b";
    var r := ReplaceChar(l, ' ', '_');
    assert |r| == 3 && r[0] == 'a' && r[1] == '_' && r[2] == 'b';
    assert r == "a_b";
  }

  lemma {:induction false} NormalizeUnderscored()
    ensures NormalizeName("a_b") == "ab"
  {
    SanitizeUnderscored();
    var l := Lower("ab");
    assert LowerChar('a') == 'a' && LowerChar('b') == 'b';
    assert l == "ab";
    var r := ReplaceChar(l, ' ', '_');
    assert |r| == 2 && r[0] == 'a' && r[1] == 'b';
    assert r == "ab";
  }

  /** The '_' that normalisation introduces is not a kept character, so a
      second normalisation drops it: normalize_name is not idempotent. */
  lemma {:induction false} NormalizeNameNotIdempotent()
    ensures NormalizeName(NormalizeName("a b")) != NormalizeName("a b")
  {
    NormalizeSpaced();
    NormalizeUnderscored();
  }

  // ---------------------------------------------------------------------
  // normalize_config
  // ---------------------------------------------------------------------

  const KeyName: string := "name"
  const KeyHumanInputMode: string := "human_input_mode"
  const KeyMaxConsecutiveAutoReply: string := "max_consecutive_auto_reply"
  const KeySystemMessage: string := "system_message"
  const KeyIsTerminationMsg: string := "is_termination_msg"
  const KeyCodeExecutionConfig: string := "code_execution_config"
  const KeyDefaultAutoReply: string := "default_auto_reply"
  const KeyDescription: string := "description"
  const KeyLlmConfig: string := "llm_config"
  const KeyAdminName: string := "admin_name"
  const KeyMessages: string := "messages"
  const KeyMaxRound: string := "max_round"
  const KeySpeakerSelectionMethod: string := "speaker_selection_method"
  const KeyAllowRepeatSpeaker: string := "allow_repeat_speaker"

  /** The fixed `llm_config` entry. */
  const LlmConfig: Dict := map[
    "config_list" := JList([]),
    "temperature" := JInt(0),
    "cache_seed" := JNull,
    "timeout" := JNull,
    "max_tokens" := JInt(2048),
    "extra_body" := JNull]

  /** The system message used when the configuration has none. */
  function DefaultSystemMessage(agentName: string): string
  {
    "You are a helpful AI assistant that can act as " + agentName + "."
  }

  /** normalize_config: the name comes from config['name'] (or the agent's
      name) normalised, the system message from config (or a default
      naming the agent), everything else is fixed. */
  function NormalizeConfig(config: Dict, agentName: string): Dict
    requires KeyName in config ==> config[KeyName].JStr?
  {
    ConfigDisplay(
      JStr(NormalizeName(if KeyName in config then config[KeyName].s else agentName)),
      Get(config, KeySystemMessage, JStr(DefaultSystemMessage(agentName))))
  }

  /** The dictionary literal of normalize_config around its two computed
      entries. */
  function ConfigDisplay(name: Json, systemMessage: Json): Dict
  {
    map[
      KeyName := name,
      KeyHumanInputMode := JStr("NEVER"),
      KeyMaxConsecutiveAutoReply := JInt(25),
      KeySystemMessage := systemMessage,
      KeyIsTerminationMsg := JNull,
      KeyCodeExecutionConfig := JStr("none"),
      KeyDefaultAutoReply := JStr(""),
      KeyDescription := JStr("Assistant Agent"),
      KeyLlmConfig := JObj(LlmConfig),
      KeyAdminName := JStr("Admin"),
      KeyMessages := JList([]),
      KeyMaxRound := JInt(100),
      KeySpeakerSelectionMethod := JStr("auto"),
      KeyAllowRepeatSpeaker := JBool(true)]
  }

  lemma {:induction false} DisplayName(name: Json, systemMessage: Json)
    ensures var r := ConfigDisplay(name, systemMessage);
      KeyName in r && r[KeyName] == name
  {
  }

  lemma {:induction false} DisplaySystemMessage(name: Json, systemMessage: Json)
    ensures var r := ConfigDisplay(name, systemMessage);
      KeySystemMessage in r && r[KeySystemMessage] == systemMessage
  {
  }

  /** The name entry is the normalised configured name, or the normalised
      agent name when the configuration has none. */
  lemma {:induction false} NormalizeConfigName(config: Dict, agentName: string)
    requires KeyName in config ==> config[KeyName].JStr?
    ensures var r := NormalizeConfig(config, agentName);
      && KeyName in r
      && (KeyName in config ==> r[KeyName] == JStr(NormalizeName(config[KeyName].s)))
      && (KeyName !in config ==> r[KeyName] == JStr(NormalizeName(agentName)))
  {
    DisplayName(JStr(NormalizeName(if KeyName in config then config[KeyName].s else agentName)),
                Get(config, KeySystemMessage, JStr(DefaultSystemMessage(agentName))));
  }

  /** The system message is the configured one when present, whatever its
      type, else the default naming the agent. */
  lemma {:induction false} NormalizeConfigSystemMessage(config: Dict, agentName: string)
    requires KeyName in config ==> config[KeyName].JStr?
    ensures var r := NormalizeConfig(config, agentName);
      && KeySystemMessage in r
      && (KeySystemMessage in config ==> r[KeySystemMessage] == config[KeySystemMessage])
      && (KeySystemMessage !in config ==> r[KeySystemMessage] == JStr(DefaultSystemMessage(agentName)))
  {
    DisplaySystemMessage(JStr(NormalizeName(if KeyName in config then config[KeyName].s else agentName)),
                         Get(config, KeySystemMessage, JStr(DefaultSystemMessage(agentName))));
  }

  /** Every other entry is a constant, whatever the configuration and the
      agent. */
  lemma {:induction false} NormalizeConfigFixed(config: Dict, agentName: string)
    requires KeyName in config ==> config[KeyName].JStr?
    ensures var r := NormalizeConfig(config, agentName);
      && KeyHumanInputMode in r && r[KeyHumanInputMode] == JStr("NEVER")
      && KeyMaxConsecutiveAutoReply in r && r[KeyMaxConsecutiveAutoReply] == JInt(25)
      && KeyIsTerminationMsg in r && r[KeyIsTerminationMsg] == JNull
      && KeyCodeExecutionConfig in r && r[KeyCodeExecutionConfig] == JStr("none")
      && KeyDefaultAutoReply in r && r[KeyDefaultAutoReply] == JStr("")
      && KeyDescription in r && r[KeyDescription] == JStr("Assistant Agent")
      && KeyLlmConfig in r && r[KeyLlmConfig] == JObj(LlmConfig)
      && KeyAdminName in r && r[KeyAdminName] == JStr("Admin")
      && KeyMessages in r && r[KeyMessages] == JList([])
      && KeyMaxRound in r && r[KeyMaxRound] == JInt(100)
      && KeySpeakerSelectionMethod in r && r[KeySpeakerSelectionMethod] == JStr("auto")
      && KeyAllowRepeatSpeaker in r && r[KeyAllowRepeatSpeaker] == JBool(true)
  {
    var n := JStr(NormalizeName(if KeyName in config then config[KeyName].s else agentName));
    var m := Get(config, KeySystemMessage, JStr(DefaultSystemMessage(agentName)));
    DisplayFixed1(n, m);
    DisplayFixed2(n, m);
    DisplayFixed3(n, m);
    DisplayFixed4(n, m);
    DisplayFixed5(n, m);
  }

  const ConfigKeys: set<string> := {
    KeyName, KeyHumanInputMode, KeyMaxConsecutiveAutoReply, KeySystemMessage, KeyIsTerminationMsg,
    KeyCodeExecutionConfig, KeyDefaultAutoReply, KeyDescription, KeyLlmConfig, KeyAdminName,
    KeyMessages, KeyMaxRound, KeySpeakerSelectionMethod, KeyAllowRepeatSpeaker}

  /** The normalised configuration has exactly the fourteen keys. */
  lemma {:induction false} NormalizeConfigKeys(config: Dict, agentName: string)
    requires KeyName in config ==> config[KeyName].JStr?
    ensures NormalizeConfig(config, agentName).Keys == ConfigKeys
  {
  }

  lemma {:induction false} DisplayFixed1(name: Json, systemMessage: Json)
    ensures var r := ConfigDisplay(name, systemMessage);
      KeyHumanInputMode in r && r[KeyHumanInputMode] == JStr("NEVER")
  {
  }

  lemma {:induction false} DisplayFixed5(name: Json, systemMessage: Json)
    ensures var r := ConfigDisplay(name, systemMessage);
      && KeyMaxConsecutiveAutoReply in r && r[KeyMaxConsecutiveAutoReply] == JInt(25)
      && KeyIsTerminationMsg in r && r[KeyIsTerminationMsg] == JNull
  {
  }

  lemma {:induction false} DisplayFixed2(name: Json, systemMessage: Json)
    ensures var r := ConfigDisplay(name, systemMessage);
      && KeyCodeExecutionConfig in r && r[KeyCodeExecutionConfig] == JStr("none")
      && KeyDefaultAutoReply in r && r[KeyDefaultAutoReply] == JStr("")
      && KeyDescription in r && r[KeyDescription] == JStr("Assistant Agent")
  {
  }

  lemma {:induction false} DisplayFixed3(name: Json, systemMessage: Json)
    ensures var r := ConfigDisplay(name, systemMessage);
      && KeyLlmConfig in r && r[KeyLlmConfig] == JObj(LlmConfig)
      && KeyAdminName in r && r[KeyAdminName] == JStr("Admin")
      && KeyMessages in r && r[KeyMessages] == JList([])
  {
  }

  lemma {:induction false} DisplayFixed4(name: Json, systemMessage: Json)
    ensures var r := ConfigDisplay(name, systemMessage);
      && KeyMaxRound in r && r[KeyMaxRound] == JInt(100)
      && KeySpeakerSelectionMethod in r && r[KeySpeakerSelectionMethod] == JStr("auto")
      && KeyAllowRepeatSpeaker in r && r[KeyAllowRepeatSpeaker] == JBool(true)
  {
  }
}
