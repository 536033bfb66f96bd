/**
 * `HdmiCecActiveness`: publishes the playback device's CEC activeness to the global
 * setting `nrdp_video_platform_capabilities` as the JSON text `{"activeCecState":"<state>"}`.
 */
module CecActiveness {
  import opened Wrappers

  const HDMI_ACTIVENESS_KEY: string := "activeCecState"
  const CEC_ACTIVE: string := "active"
  const CEC_INACTIVE: string := "inactive"
  const CEC_NOT_APPLICABLE: string := "unknown"
  const CEC_DISABLED: string := "disabled"
  const SETTINGS_CEC_ACTIVENESS: string := "nrdp_video_platform_capabilities"
  const CEC_ACTIVENESS_DISABLED_JSON: string := ""

  const JSON_PREFIX: string := "{\"" + HDMI_ACTIVENESS_KEY + "\":\""
  const JSON_SUFFIX: string := "\"}"

  /** `JSONObject.toString` of the one-key object built in `init`. */
  function ActivenessJson(state: string): string {
    JSON_PREFIX + state + JSON_SUFFIX
  }

  /** `getJsonValue`: active, inactive and unknown get their JSON object; anything else "". */
  function GetJsonValue(state: string): (json: string)
    ensures json == "" <==> state !in {CEC_ACTIVE, CEC_INACTIVE, CEC_NOT_APPLICABLE}
  {
    if state == CEC_ACTIVE || state == CEC_INACTIVE || state == CEC_NOT_APPLICABLE
    then ActivenessJson(state)
    else if state == CEC_DISABLED then CEC_ACTIVENESS_DISABLED_JSON
    else ""
  }

  /** What a reader of the setting sees as `activeCecState`. */
  function ActiveCecStateOf(json: string): (state: Option<string>)
    ensures state.Some? ==> json == ActivenessJson(state.value)
  {
    if |json| >= |JSON_PREFIX| + |JSON_SUFFIX| && json[..|JSON_PREFIX|] == JSON_PREFIX &&
       json[|json| - |JSON_SUFFIX|..] == JSON_SUFFIX
    then
      var v := json[|JSON_PREFIX|..|json| - |JSON_SUFFIX|];
      assert json == JSON_PREFIX + v + JSON_SUFFIX;
      Some(v)
    else None
  }

  /** The published value names the state for the three accepted states and nothing otherwise. */
  lemma PublishedStateRoundTrip(state: string)
    ensures state in {CEC_ACTIVE, CEC_INACTIVE, CEC_NOT_APPLICABLE} ==>
              ActiveCecStateOf(GetJsonValue(state)) == Some(state)
    ensures state !in {CEC_ACTIVE, CEC_INACTIVE, CEC_NOT_APPLICABLE} ==>
              ActiveCecStateOf(GetJsonValue(state)).None?
  {
    if state in {CEC_ACTIVE, CEC_INACTIVE, CEC_NOT_APPLICABLE} {
      var json := ActivenessJson(state);
      assert json[..|JSON_PREFIX|] == JSON_PREFIX;
      assert json[|json| - |JSON_SUFFIX|..] == JSON_SUFFIX;
      assert json[|JSON_PREFIX|..|json| - |JSON_SUFFIX|] == state;
    }
  }

  class HdmiCecActiveness {
    var state: Option<string>
    /** Values written to the setting, in order. */
    var written: seq<string>

    /** The constructor's `init` publishes "inactive". */
    constructor ()
      ensures state == Some(CEC_INACTIVE) && written == [GetJsonValue(CEC_INACTIVE)]
    {
      state := None;
      written := [];
      new;
      SetState(CEC_INACTIVE);
    }

    /** `setState`: the current state writes nothing; any other updates it and writes once. */
    method SetState(s: string)
      modifies this
      ensures old(state) == Some(s) ==> unchanged(this)
      ensures old(state) != Some(s) ==> state == Some(s) && written == old(written) + [GetJsonValue(s)]
    {
      if state == Some(s) {
        return;
      }
      state := Some(s);
      written := written + [GetJsonValue(s)];
    }
  }
}
