/** Voice selection for the TTS engines (Kokoro, Orpheus): a narrator/dialogue pair per
    narrator gender, and a score map from a character's gender score (0-10) to a voice. */
module VoiceMapping {
  import opened Wrappers
  import opened Strings
  import opened Json

  /** The voices one engine offers. A score map, a JSON object keyed "0" to "10", is
      held as the list of its values in key order. */
  datatype EngineVoices = EngineVoices(
    maleNarrator: string,
    maleDialogue: string,
    femaleNarrator: string,
    femaleDialogue: string,
    maleScores: seq<string>,
    femaleScores: seq<string>)

  /** The position a score-map key stands for: the keys are the decimal renderings of 0 to 10. */
  function ScoreIndex(key: string): (r: Option<nat>)
    ensures r.Some? ==> r.value <= 10
  {
    if |key| == 1 && IsDigit(key[0]) then Some(key[0] as int - '0' as int)
    else if key == "10" then Some(10)
    else None
  }

  /** `score_map[key]` when `key in score_map`, for a list of the 11 values. */
  function ScoreMapGet(scores: seq<string>, key: string): Option<string>
    requires |scores| == 11
  {
    match ScoreIndex(key)
    case Some(i) => Some(scores[i])
    case None => None
  }

  /** `get_default_voice_mappings`. */
  function DefaultVoiceMappings(): map<string, EngineVoices> {
    map[
      "kokoro" := EngineVoices(
        "am_puck", "af_alloy+am_puck", "af_heart", "af_sky",
        ["am_puck", "am_onyx", "am_michael", "am_echo", "am_fenrir+bf_alice", "af_alloy+am_puck",
         "af_kore", "af_sky", "af_aoede+af_heart", "af_sarah", "af_bella"],
        ["af_heart", "am_onyx", "am_echo", "am_puck", "am_fenrir+bf_alice", "af_alloy+am_puck",
         "af_kore", "af_sky", "af_aoede+af_heart", "af_sarah", "af_bella"]),
      "orpheus" := EngineVoices(
        "zac", "dan", "tara", "leah",
        ["zac", "leo", "dan", "dan", "zac", "zoe", "jess", "tara", "tara", "leah", "mia"],
        ["tara", "leo", "dan", "zac", "zac", "zoe", "jess", "jess", "leah", "leah", "mia"])
    ]
  }

  /** An engine entry whose score maps have 11 entries and that names no empty voice. */
  predicate WellFormedEntry(e: EngineVoices) {
    |e.maleScores| == 11 && |e.femaleScores| == 11 && "" !in AllVoices(e)
  }

  lemma KokoroEntryShape()
    ensures WellFormedEntry(DefaultVoiceMappings()["kokoro"])
  {
    var e := DefaultVoiceMappings()["kokoro"];
    assert forall i :: 0 <= i < |AllVoices(e)| ==> |AllVoices(e)[i]| > 0;
  }

  lemma OrpheusEntryShape()
    ensures WellFormedEntry(DefaultVoiceMappings()["orpheus"])
  {
    var e := DefaultVoiceMappings()["orpheus"];
    assert forall i :: 0 <= i < |AllVoices(e)| ==> |AllVoices(e)[i]| > 0;
  }

  /** Both engines of the default table have 11-entry score maps and name no empty voice. */
  lemma DefaultTableShape(engine: string)
    requires engine in DefaultVoiceMappings()
    ensures |DefaultVoiceMappings()[engine].maleScores| == 11
    ensures |DefaultVoiceMappings()[engine].femaleScores| == 11
    ensures "" !in AllVoices(DefaultVoiceMappings()[engine])
  {
    assert engine == "kokoro" || engine == "orpheus";
    if engine == "kokoro" {
      KokoroEntryShape();
    } else {
      OrpheusEntryShape();
    }
  }

  /** In both engines of the default table each narrator voice is the entry for score 0 of
      the score map of the same gender. */
  lemma NarratorIsScoreZero(engine: string)
    requires engine in DefaultVoiceMappings()
    ensures var e := DefaultVoiceMappings()[engine];
      |e.maleScores| == 11 && |e.femaleScores| == 11
      && e.maleNarrator == e.maleScores[0] && e.femaleNarrator == e.femaleScores[0]
  {
    DefaultTableShape(engine);
  }

  /** The engine entry for a name, compared in lower case; `ValueError` when unknown. */
  function LookupEngine(engineName: string): (r: Result<EngineVoices>)
    ensures r.Ok? <==> Lower(engineName) in DefaultVoiceMappings()
    ensures r.Ok? ==> r.value == DefaultVoiceMappings()[Lower(engineName)]
  {
    var key := Lower(engineName);
    if key in DefaultVoiceMappings() then Ok(DefaultVoiceMappings()[key])
    else Err(ValueError("Motor '" + engineName + "' no encontrado en mapeos de voz"))
  }

  /** The score map a narrator gender selects: "male" picks the male map, anything else
      the female one. */
  function ScoreMapFor(e: EngineVoices, narratorGender: string): seq<string> {
    if narratorGender == "male" then e.maleScores else e.femaleScores
  }

  /** `get_narrator_and_dialogue_voices`. */
  function GetNarratorAndDialogueVoices(engineName: string, narratorGender: string): (r: Result<(string, string)>)
    ensures r.Ok? <==> LookupEngine(engineName).Ok?
    ensures r.Ok? && narratorGender == "male" ==>
      r.value == (LookupEngine(engineName).value.maleNarrator, LookupEngine(engineName).value.maleDialogue)
    ensures r.Ok? && narratorGender != "male" ==>
      r.value == (LookupEngine(engineName).value.femaleNarrator, LookupEngine(engineName).value.femaleDialogue)
  {
    match LookupEngine(engineName)
    case Err(e) => Err(e)
    case Ok(e) =>
      if narratorGender == "male" then Ok((e.maleNarrator, e.maleDialogue))
      else Ok((e.femaleNarrator, e.femaleDialogue))
  }

  /** The voice a score key selects, falling back to the entry for "0". */
  function VoiceForScoreKey(engineName: string, narratorGender: string, scoreKey: string): (r: Result<string>)
    ensures r.Ok? <==> LookupEngine(engineName).Ok?
    ensures r.Ok? ==> r.value in ScoreMapFor(LookupEngine(engineName).value, narratorGender)
  {
    match LookupEngine(engineName)
    case Err(e) => Err(e)
    case Ok(e) =>
      DefaultTableShape(Lower(engineName));
      var m := ScoreMapFor(e, narratorGender);
      match ScoreMapGet(m, scoreKey)
      case Some(v) => Ok(v)
      case None => Ok(m[0])
  }

  /** `get_voice_for_character_score`: the voice at `str(score)` in the selected score map. */
  function GetVoiceForCharacterScore(engineName: string, narratorGender: string, score: int): Result<string> {
    VoiceForScoreKey(engineName, narratorGender, IntToString(score))
  }

  /** `get_narrator_voice_for_character`: the entry for score 0. */
  function GetNarratorVoiceForCharacter(engineName: string, narratorGender: string): (r: Result<string>)
    ensures r == GetVoiceForCharacterScore(engineName, narratorGender, 0)
  {
    match LookupEngine(engineName)
    case Err(e) => Err(e)
    case Ok(e) =>
      DefaultTableShape(Lower(engineName));
      Ok(ScoreMapFor(e, narratorGender)[0])
  }

  /** The narrator's voice for characters is the narrator voice of the narrator/dialogue
      pair, for every engine and gender. */
  lemma NarratorVoicesAgree(engineName: string, narratorGender: string)
    ensures GetNarratorVoiceForCharacter(engineName, narratorGender).Ok?
      <==> GetNarratorAndDialogueVoices(engineName, narratorGender).Ok?
    ensures GetNarratorVoiceForCharacter(engineName, narratorGender).Ok? ==>
      GetNarratorVoiceForCharacter(engineName, narratorGender).value
      == GetNarratorAndDialogueVoices(engineName, narratorGender).value.0
  {
    if LookupEngine(engineName).Ok? {
      NarratorIsScoreZero(Lower(engineName));
    }
  }

  /** A score in 0..10 selects its own entry; any other score gets the narrator's voice. */
  lemma {:induction false} ScoreOutsideRangeFallsBack(engineName: string, narratorGender: string, score: int)
    requires LookupEngine(engineName).Ok?
    ensures 0 <= score <= 10 ==>
      GetVoiceForCharacterScore(engineName, narratorGender, score) == Ok(ScoreMapFor(LookupEngine(engineName).value, narratorGender)[score])
    ensures !(0 <= score <= 10) ==>
      GetVoiceForCharacterScore(engineName, narratorGender, score) == GetNarratorVoiceForCharacter(engineName, narratorGender)
  {
    DefaultTableShape(Lower(engineName));
    ScoreIndexOfInt(score);
  }

  /** `str(score)` is a score-map key exactly for the scores 0 to 10, and stands for that score. */
  lemma {:induction false} ScoreIndexOfInt(score: int)
    ensures ScoreIndex(IntToString(score)) == if 0 <= score <= 10 then Some(score) else None
  {
    var s := IntToString(score);
    if 0 <= score < 10 {
      assert s == [DigitChar(score)];
    } else if score == 10 {
      assert s == NatToString(1) + [DigitChar(0)];
    } else if score < 0 {
      assert s[0] == '-';
    } else {
      var q := score / 10;
      assert s == NatToString(q) + [DigitChar(score % 10)];
      if q >= 10 {
        LongRendering(q);
        assert |s| >= 3;
      } else {
        assert s == [DigitChar(q), DigitChar(score % 10)];
        assert s[0] != '1' || s[1] != '0';
      }
    }
  }

  lemma {:induction false} LongRendering(n: nat)
    requires n >= 10
    ensures |NatToString(n)| >= 2
  {
  }

  /** The selected score map's entries for 0 to 10, as a character's score from a JSON map
      selects them: `str(score)` of an int is its decimal digits and of a string the string
      itself; `str()` of any other JSON value is never one of the keys. */
  function ScoreKeyOf(score: Json): string {
    match score
    case JInt(i) => IntToString(i)
    case JStr(s) => s
    case JBool(b) => if b then "True" else "False"
    case JNull => "None"
    case _ => "?"
  }

  /** `find_voice_for_character`: the narrator (in either language) gets the score-0 voice;
      a character listed under `"scores"` gets the voice of its `gender_score` (default 5),
      any other character the voice of score 5. The membership test follows Python's `in`
      on the value under `"scores"`; a hit on a list or string then fails to index it. */
  function FindVoiceForCharacter(characterName: string, genderMap: map<string, Json>,
                                 engineName: string, narratorGender: string): (r: Result<string>)
    ensures Lower(characterName) == "narrator" || Lower(characterName) == "narrador" ==>
      r == GetNarratorVoiceForCharacter(engineName, narratorGender)
    ensures Lower(characterName) != "narrator" && Lower(characterName) != "narrador" && "scores" !in genderMap ==>
      r == GetVoiceForCharacterScore(engineName, narratorGender, 5)
    ensures var name := Lower(characterName);
      name != "narrator" && name != "narrador" && "scores" in genderMap && genderMap["scores"].JObj?
      && name !in genderMap["scores"].fields ==>
        r == GetVoiceForCharacterScore(engineName, narratorGender, 5)
    ensures var name := Lower(characterName);
      name != "narrator" && name != "narrador" && "scores" in genderMap && genderMap["scores"].JObj?
      && name in genderMap["scores"].fields ==>
        var info := genderMap["scores"].fields[name];
        && (!info.JObj? ==> r.Err?)
        && (info.JObj? ==>
              var score := Get(info.fields, "gender_score", JInt(5));
              && r == VoiceForScoreKey(engineName, narratorGender, ScoreKeyOf(score))
              && ("gender_score" !in info.fields ==> r == GetVoiceForCharacterScore(engineName, narratorGender, 5))
              && (score.JInt? ==> r == GetVoiceForCharacterScore(engineName, narratorGender, score.i)))
    ensures r.Ok? ==> LookupEngine(engineName).Ok? && r.value in ScoreMapFor(LookupEngine(engineName).value, narratorGender)
  {
    var name := Lower(characterName);
    if name == "narrator" || name == "narrador" then
      GetNarratorVoiceForCharacter(engineName, narratorGender)
    else if "scores" !in genderMap then
      GetVoiceForCharacterScore(engineName, narratorGender, 5)
    else
      match genderMap["scores"]
      case JObj(scores) =>
        if name in scores then
          match ItemGet(scores[name], "gender_score", JInt(5))
          case Err(e) => Err(e)
          case Ok(score) => VoiceForScoreKey(engineName, narratorGender, ScoreKeyOf(score))
        else GetVoiceForCharacterScore(engineName, narratorGender, 5)
      case JArr(xs) =>
        if JStr(name) in xs then Err(TypeError("list indices must be integers or slices, not str"))
        else GetVoiceForCharacterScore(engineName, narratorGender, 5)
      case JStr(s) =>
        if Contains(s, name) then Err(TypeError("string indices must be integers"))
        else GetVoiceForCharacterScore(engineName, narratorGender, 5)
      case _ => Err(TypeError("argument is not iterable"))
  }

  // ---------------------------------------------------------------- available voices

  /** Every voice an engine entry names: the four pair voices and both score maps' values. */
  function AllVoices(e: EngineVoices): seq<string> {
    [e.maleNarrator, e.femaleNarrator, e.maleDialogue, e.femaleDialogue] + e.maleScores + e.femaleScores
  }

  /** The non-empty voices an engine entry names. */
  function VoiceSet(e: EngineVoices): set<string> {
    set v | v in AllVoices(e) && v != ""
  }

  /** What `get_available_voices` returns: no voice list for an unknown engine, otherwise the
      set of non-empty voices the entry names (the Python list is that set in some order). */
  function AvailableVoiceSet(engineName: string): Option<set<string>> {
    match LookupEngine(engineName)
    case Err(_) => None
    case Ok(e) => Some(VoiceSet(e))
  }

  /** `get_available_voices`: collects the pair voices, then the values of the two score maps. */
  method GetAvailableVoices(engineName: string) returns (r: Option<set<string>>)
    ensures r == AvailableVoiceSet(engineName)
  {
    var lookup := LookupEngine(engineName);
    if lookup.Err? {
      return None;
    }
    var all := CollectVoices(lookup.value);
    r := Some(all - {""});
  }

  /** The loop of `get_available_voices` over one engine entry: the pair voices, then every
      value of the two score maps. */
  method CollectVoices(e: EngineVoices) returns (all: set<string>)
    ensures all - {""} == VoiceSet(e)
  {
    var pairs := [e.maleNarrator, e.femaleNarrator, e.maleDialogue, e.femaleDialogue];
    all := {e.maleNarrator, e.femaleNarrator, e.maleDialogue, e.femaleDialogue};
    var values := e.maleScores + e.femaleScores;
    var k := 0;
    assert pairs + values[..0] == pairs;
    while k < |values|
      invariant 0 <= k <= |values|
      invariant all == set v | v in pairs + values[..k]
    {
      assert pairs + values[..k + 1] == (pairs + values[..k]) + [values[k]];
      all := all + {values[k]};
      k := k + 1;
    }
    assert values[..k] == values;
    assert AllVoices(e) == pairs + values;
  }

  /** `validate_voice`: whether the engine offers the voice. */
  method ValidateVoice(engineName: string, voice: string) returns (ok: bool)
    ensures ok <==> AvailableVoiceSet(engineName).Some? && voice in AvailableVoiceSet(engineName).value
  {
    var available := GetAvailableVoices(engineName);
    ok := available.Some? && voice in available.value;
  }

  /** Every voice the selection functions return is one `validate_voice` accepts. */
  lemma SelectedVoicesAreAvailable(characterName: string, genderMap: map<string, Json>,
                                   engineName: string, narratorGender: string, score: int)
    ensures GetNarratorAndDialogueVoices(engineName, narratorGender).Ok? ==>
      var (n, d) := GetNarratorAndDialogueVoices(engineName, narratorGender).value;
      AvailableVoiceSet(engineName).Some? && n in AvailableVoiceSet(engineName).value && d in AvailableVoiceSet(engineName).value
    ensures GetVoiceForCharacterScore(engineName, narratorGender, score).Ok? ==>
      GetVoiceForCharacterScore(engineName, narratorGender, score).value in AvailableVoiceSet(engineName).value
    ensures FindVoiceForCharacter(characterName, genderMap, engineName, narratorGender).Ok? ==>
      FindVoiceForCharacter(characterName, genderMap, engineName, narratorGender).value in AvailableVoiceSet(engineName).value
  {
    if LookupEngine(engineName).Ok? {
      DefaultTableShape(Lower(engineName));
    }
  }
}
