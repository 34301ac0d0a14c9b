/**
 * The content script's translator object of src/content.js: the on/off
 * switch, the messages it answers, and the Baidu signature. Starting and
 * stopping recognition and the subtitle overlay are browser calls; the
 * model returns which of the two the toggle asks for.
 */
module ContentScript {
  import opened JsValue
  import Rfc = Rfc1321
  import M = ContentMd5
  import ContentMd5Rfc

  /** What a toggle asks of the page. */
  datatype Effect = StartRecognition | StopRecognition

  const ToggleAction := "TOGGLE_TRANSLATOR"
  const UpdateAction := "UPDATE_CONFIG"
  const UnknownAction := "未知操作"

  /** The reply sent for an action, `active` being the state after it. */
  function Reply(action: Option<Json>, active: bool): (r: map<string, Json>)
    ensures "success" in r
    ensures r["success"] == Bool(action == Some(Str(ToggleAction)) || action == Some(Str(UpdateAction)))
    ensures action == Some(Str(ToggleAction)) ==> r == map["success" := Bool(true), "active" := Bool(active)]
    ensures action == Some(Str(UpdateAction)) ==> r == map["success" := Bool(true)]
    ensures r["success"] == Bool(false) ==> r == map["success" := Bool(false), "error" := Str(UnknownAction)]
  {
    if action == Some(Str(ToggleAction)) then map["success" := Bool(true), "active" := Bool(active)]
    else if action == Some(Str(UpdateAction)) then map["success" := Bool(true)]
    else map["success" := Bool(false), "error" := Str(UnknownAction)]
  }

  class VoiceTranslator {
    var isActive: bool
    /** `this.config`: whatever value the last update carried. */
    var config: Option<Json>

    constructor()
      ensures !isActive && config == Some(Obj(map[]))
    {
      isActive := false;
      config := Some(Obj(map[]));
    }

    /** toggleDisplay: the state flips and recognition starts or stops
        with it. */
    method ToggleDisplay() returns (effect: Effect)
      modifies this`isActive
      ensures isActive == !old(isActive)
      ensures effect == (if isActive then StartRecognition else StopRecognition)
    {
      isActive := !isActive;
      if isActive {
        effect := StartRecognition;
      } else {
        effect := StopRecognition;
      }
    }

    /** handleMessage: a toggle flips the state, a configuration update
        replaces the configuration, and any other action changes nothing
        and is answered with failure. */
    method HandleMessage(message: map<string, Json>) returns (response: map<string, Json>, effect: Option<Effect>)
      modifies this
      ensures var action := Lookup(message, "action");
        response == Reply(action, isActive)
      ensures Lookup(message, "action") == Some(Str(ToggleAction)) ==>
        isActive == !old(isActive) && config == old(config)
        && effect == Some(if isActive then StartRecognition else StopRecognition)
      ensures Lookup(message, "action") == Some(Str(UpdateAction)) ==>
        isActive == old(isActive) && config == Lookup(message, "config") && effect == None
      ensures Lookup(message, "action") != Some(Str(ToggleAction)) && Lookup(message, "action") != Some(Str(UpdateAction)) ==>
        isActive == old(isActive) && config == old(config) && effect == None
    {
      var action := Lookup(message, "action");
      if action == Some(Str(ToggleAction)) {
        var e := ToggleDisplay();
        effect := Some(e);
        response := map["success" := Bool(true), "active" := Bool(isActive)];
      } else if action == Some(Str(UpdateAction)) {
        config := Lookup(message, "config");
        effect := None;
        response := map["success" := Bool(true)];
      } else {
        effect := None;
        response := map["success" := Bool(false), "error" := Str(UnknownAction)];
      }
    }

    /** generateSign: the content script's md5, as written, of appid +
        query + salt + key, the salt given as the text JavaScript makes of
        it. For ASCII text without CR LF that is the RFC 1321 digest of its
        bytes; whenever the encoding keeps the text's length it is the
        corrected md5. */
    method GenerateSign(appid: seq<M.Unit>, query: seq<M.Unit>, salt: seq<M.Unit>, key: seq<M.Unit>) returns (sign: string)
      ensures sign == M.Md5AsWritten(appid + query + salt + key)
      ensures |sign| == 32 && Rfc.IsLowerHex(sign)
      ensures var str := appid + query + salt + key;
        M.IsAscii(str) && !M.HasCrlf(str) && |str| < 0x1000_0000 ==> sign == Rfc.Md5Hex(ContentMd5Rfc.Bytes(str))
      ensures var str := appid + query + salt + key;
        |M.Encoded(str)| == |str| ==> sign == M.Md5Encoded(str)
    {
      var str := appid + query + salt + key;
      sign := M.Md5(str);
      if M.IsAscii(str) && !M.HasCrlf(str) && |str| < 0x1000_0000 {
        ContentMd5Rfc.AsciiMd5IsRfc(str);
      }
    }
  }
}
