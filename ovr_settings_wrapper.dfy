/**
 * The wrapper around the runtime's settings interface. Every call reports
 * its error through `handleErrors`, which maps it to NoError or
 * UndefinedError and logs it, except that once an "unset setting has no
 * default" error has been logged, further errors of that kind are silent.
 *
 * The runtime itself is not visible: each call's answer (value and error)
 * is a parameter, the calls made are recorded in order, and the log holds
 * one line per message written.
 */
module OvrSettingsWrapper {

  /** `vr::EVRSettingsError`. */
  datatype VRSettingsError =
    | VRSettingsErrorNone | IPCFailed | WriteFailed | ReadFailed | JsonParseFailed
    | UnsetSettingHasNoDefault

  /** The wrapper's own result. */
  datatype SettingsError = NoError | UndefinedError

  /** The runtime sections `resetAllSettings` clears, by their header constants. */
  datatype Section = SteamVRSection | NotificationsSection | CollisionBoundsSection | CameraSection | AudioSection
    | OtherSection(name: string)

  /** A request made to the runtime's settings interface. */
  datatype SettingsCall =
    | GetCall(section: Section, key: string)
    | SetCall(section: Section, key: string, value: SettingValue)
    | RemoveSectionCall(section: Section)
    | RemoveKeyCall(section: Section, key: string)

  datatype SettingValue = BoolValue(b: bool) | Int32Value(i: int) | FloatValue(f: real) | StringValue(s: string)

  /** One critical log line: the key, the error and the caller's message. */
  datatype LogLine = LogLine(key: string, error: VRSettingsError, message: string)

  // ---------------------------------------------------------------------
  // handleErrors as functions of the flag and the error
  // ---------------------------------------------------------------------

  /** What `handleErrors` returns. */
  function Handled(error: VRSettingsError): (r: SettingsError)
    ensures r == NoError <==> error == VRSettingsErrorNone
  {
    if error == VRSettingsErrorNone then NoError else UndefinedError
  }

  /** Whether `handleErrors` writes a log line, given the flag before the call. */
  predicate Logs(enabled: bool, error: VRSettingsError) {
    error != VRSettingsErrorNone && (enabled || error != UnsetSettingHasNoDefault)
  }

  /** The flag after the call: cleared by an unset-no-default error, never set. */
  function FlagAfter(enabled: bool, error: VRSettingsError): (r: bool)
    ensures r ==> enabled
    ensures r <==> enabled && error != UnsetSettingHasNoDefault
  {
    if Logs(enabled, error) && error == UnsetSettingHasNoDefault then false else enabled
  }

  function LinesOf(enabled: bool, key: string, error: VRSettingsError, message: string): seq<LogLine> {
    if Logs(enabled, error) then [LogLine(key, error, message)] else []
  }

  /** Every error other than unset-no-default is logged, whatever the flag. */
  lemma OtherErrorsAlwaysLogged(enabled: bool, error: VRSettingsError)
    requires error != VRSettingsErrorNone && error != UnsetSettingHasNoDefault
    ensures Logs(enabled, error) && FlagAfter(enabled, error) == enabled
  {
  }

  /**
   * `getFloat` and `getString` handle the same error twice. An
   * unset-no-default error is logged the first time only, while the flag is
   * still set; every other error is logged both times. Both calls return
   * the same result.
   */
  lemma HandledTwice(enabled: bool, key: string, error: VRSettingsError, message: string)
    ensures var lines := LinesOf(enabled, key, error, message) + LinesOf(FlagAfter(enabled, error), key, error, message);
      |lines| == if error == VRSettingsErrorNone then 0
                 else if error == UnsetSettingHasNoDefault then (if enabled then 1 else 0)
                 else 2
    ensures FlagAfter(FlagAfter(enabled, error), error) == FlagAfter(enabled, error)
  {
  }

  // ---------------------------------------------------------------------
  // The wrapper's state
  // ---------------------------------------------------------------------

  class SettingsWrapper {
    /** `unsetSettingErrorEnabled`. */
    var unsetSettingErrorEnabled: bool
    var log: seq<LogLine>
    var calls: seq<SettingsCall>

    /** Program start: the flag is set and nothing has happened yet. */
    constructor()
      ensures unsetSettingErrorEnabled && log == [] && calls == []
    {
      unsetSettingErrorEnabled := true;
      log := [];
      calls := [];
    }

    /** `handleErrors`. */
    method HandleErrors(settingsKey: string, error: VRSettingsError, customErrorMsg: string) returns (r: SettingsError)
      modifies this
      ensures r == Handled(error)
      ensures log == old(log) + LinesOf(old(unsetSettingErrorEnabled), settingsKey, error, customErrorMsg)
      ensures unsetSettingErrorEnabled == FlagAfter(old(unsetSettingErrorEnabled), error)
      ensures calls == old(calls)
    {
      if error != VRSettingsErrorNone {
        if !unsetSettingErrorEnabled && error == UnsetSettingHasNoDefault {
          return UndefinedError;
        }
        log := log + [LogLine(settingsKey, error, customErrorMsg)];
        if error == UnsetSettingHasNoDefault {
          unsetSettingErrorEnabled := false;
        }
        return UndefinedError;
      }
      return NoError;
    }

    /** `getBool`: the runtime's answer, with the error handled once. */
    method GetBool(section: Section, settingsKey: string, customErrorMsg: string, answer: bool, error: VRSettingsError)
      returns (err: SettingsError, value: bool)
      modifies this
      ensures err == Handled(error) && value == answer
      ensures calls == old(calls) + [GetCall(section, settingsKey)]
      ensures log == old(log) + LinesOf(old(unsetSettingErrorEnabled), settingsKey, error, customErrorMsg)
      ensures unsetSettingErrorEnabled == FlagAfter(old(unsetSettingErrorEnabled), error)
    {
      calls := calls + [GetCall(section, settingsKey)];
      value := answer;
      err := HandleErrors(settingsKey, error, customErrorMsg);
    }

    /** `getInt32`. */
    method GetInt32(section: Section, settingsKey: string, customErrorMsg: string, answer: int, error: VRSettingsError)
      returns (err: SettingsError, value: int)
      modifies this
      ensures err == Handled(error) && value == answer
      ensures calls == old(calls) + [GetCall(section, settingsKey)]
      ensures log == old(log) + LinesOf(old(unsetSettingErrorEnabled), settingsKey, error, customErrorMsg)
      ensures unsetSettingErrorEnabled == FlagAfter(old(unsetSettingErrorEnabled), error)
    {
      calls := calls + [GetCall(section, settingsKey)];
      value := answer;
      err := HandleErrors(settingsKey, error, customErrorMsg);
    }

    /** `getFloat`: the error is handled twice, the second result is returned. */
    method GetFloat(section: Section, settingsKey: string, customErrorMsg: string, answer: real, error: VRSettingsError)
      returns (err: SettingsError, value: real)
      modifies this
      ensures err == Handled(error) && value == answer
      ensures calls == old(calls) + [GetCall(section, settingsKey)]
      ensures var f := old(unsetSettingErrorEnabled);
        log == old(log) + LinesOf(f, settingsKey, error, customErrorMsg)
                        + LinesOf(FlagAfter(f, error), settingsKey, error, customErrorMsg)
      ensures unsetSettingErrorEnabled == FlagAfter(old(unsetSettingErrorEnabled), error)
    {
      calls := calls + [GetCall(section, settingsKey)];
      value := answer;
      var _ := HandleErrors(settingsKey, error, customErrorMsg);
      err := HandleErrors(settingsKey, error, customErrorMsg);
    }

    /** `getString`: like `getFloat`, the error is handled twice. */
    method GetString(section: Section, settingsKey: string, customErrorMsg: string, answer: string, error: VRSettingsError)
      returns (err: SettingsError, value: string)
      modifies this
      ensures err == Handled(error) && value == answer
      ensures calls == old(calls) + [GetCall(section, settingsKey)]
      ensures var f := old(unsetSettingErrorEnabled);
        log == old(log) + LinesOf(f, settingsKey, error, customErrorMsg)
                        + LinesOf(FlagAfter(f, error), settingsKey, error, customErrorMsg)
      ensures unsetSettingErrorEnabled == FlagAfter(old(unsetSettingErrorEnabled), error)
    {
      calls := calls + [GetCall(section, settingsKey)];
      var _ := HandleErrors(settingsKey, error, customErrorMsg);
      value := answer;
      err := HandleErrors(settingsKey, error, customErrorMsg);
    }

    /**
     * `setBool`, `setInt32`, `setFloat` and `setString`: the request, and
     * `handleErrors`' result for the runtime's error, returned unchanged.
     */
    method Set(section: Section, settingsKey: string, value: SettingValue, customErrorMsg: string, error: VRSettingsError)
      returns (err: SettingsError)
      modifies this
      ensures err == Handled(error)
      ensures calls == old(calls) + [SetCall(section, settingsKey, value)]
      ensures log == old(log) + LinesOf(old(unsetSettingErrorEnabled), settingsKey, error, customErrorMsg)
      ensures unsetSettingErrorEnabled == FlagAfter(old(unsetSettingErrorEnabled), error)
    {
      calls := calls + [SetCall(section, settingsKey, value)];
      err := HandleErrors(settingsKey, error, customErrorMsg);
    }

    /** `removeSection`: errors are reported under the key "section". */
    method RemoveSection(section: Section, customErrorMsg: string, error: VRSettingsError)
      returns (err: SettingsError)
      modifies this
      ensures err == Handled(error)
      ensures calls == old(calls) + [RemoveSectionCall(section)]
      ensures log == old(log) + LinesOf(old(unsetSettingErrorEnabled), "section", error, customErrorMsg)
      ensures unsetSettingErrorEnabled == FlagAfter(old(unsetSettingErrorEnabled), error)
    {
      calls := calls + [RemoveSectionCall(section)];
      err := HandleErrors("section", error, customErrorMsg);
    }

    /** `removeKeyInSection`. */
    method RemoveKeyInSection(section: Section, settingsKey: string, customErrorMsg: string, error: VRSettingsError)
      returns (err: SettingsError)
      modifies this
      ensures err == Handled(error)
      ensures calls == old(calls) + [RemoveKeyCall(section, settingsKey)]
      ensures log == old(log) + LinesOf(old(unsetSettingErrorEnabled), settingsKey, error, customErrorMsg)
      ensures unsetSettingErrorEnabled == FlagAfter(old(unsetSettingErrorEnabled), error)
    {
      calls := calls + [RemoveKeyCall(section, settingsKey)];
      err := HandleErrors(settingsKey, error, customErrorMsg);
    }

    /**
     * `resetAllSettings`: removes the SteamVR, notifications, collision
     * bounds, camera and audio sections, in that order; errorOf is the
     * runtime's answer for each. The results are discarded.
     */
    method ResetAllSettings(errorOf: Section -> VRSettingsError)
      modifies this
      ensures calls == old(calls) + ResetRequests()
      ensures unsetSettingErrorEnabled ==> old(unsetSettingErrorEnabled)
      ensures |log| <= |old(log)| + 5
    {
      var msg := "While Resetting All";
      var _ := RemoveSection(SteamVRSection, msg, errorOf(SteamVRSection));
      var _ := RemoveSection(NotificationsSection, msg, errorOf(NotificationsSection));
      var _ := RemoveSection(CollisionBoundsSection, msg, errorOf(CollisionBoundsSection));
      var _ := RemoveSection(CameraSection, msg, errorOf(CameraSection));
      var _ := RemoveSection(AudioSection, msg, errorOf(AudioSection));
    }
  }

  /** The five removals `resetAllSettings` requests. */
  function ResetRequests(): (r: seq<SettingsCall>)
    ensures |r| == 5
  {
    [RemoveSectionCall(SteamVRSection), RemoveSectionCall(NotificationsSection),
     RemoveSectionCall(CollisionBoundsSection), RemoveSectionCall(CameraSection),
     RemoveSectionCall(AudioSection)]
  }

  /** The five sections are distinct, so no section is removed twice. */
  lemma ResetRequestsDistinct()
    ensures forall i, j :: 0 <= i < j < |ResetRequests()| ==> ResetRequests()[i] != ResetRequests()[j]
  {
  }
}
