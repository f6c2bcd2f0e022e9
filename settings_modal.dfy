/** The settings dialog of the web app
    (frontend/src/components/SettingsModal.jsx): two validators that guard
    the sampling rate and the window size, and the two buttons that send
    them. `parseFloat` yielding NaN is `None` here; NaN compares false with
    every number, so neither validator rejects it. */
module SettingsModal {
  import opened Wrappers
  import opened Text
  import opened Numeric

  /** An input's state: the number it starts with, or the text typed in. */
  datatype FieldValue = Number(n: real) | Typed(text: string)

  /** `parseFloat` of an input's state; a number parses as itself. */
  function ParseField(v: FieldValue): Option<real> {
    match v
    case Number(n) => Some(n)
    case Typed(text) => JsParseFloat(text)
  }

  const SamplingRateMessage := "Sampling rate must be between 0.01 and 10."
  const WSizeMessage := "Window size must be a positive number (integers will be rounded)"

  /** What a validator returns, and the error text it leaves on screen. */
  datatype Check = Check(ok: bool, error: string)

  /** `validateSamplingRate`: rejects a rate below 0.01 or above 10, so
      both bounds pass; passing clears the message, failing sets it. */
  function CheckSamplingRate(v: FieldValue): (c: Check)
    ensures c.ok <==> ParseField(v).None? || 0.01 <= ParseField(v).value <= 10.0
    ensures c.error == if c.ok then "" else SamplingRateMessage
  {
    match ParseField(v)
    case Some(rate) =>
      if rate < 0.01 || rate > 10.0 then Check(false, SamplingRateMessage) else Check(true, "")
    case None => Check(true, "")
  }

  /** `validateWSize`: rejects a size of zero or less and nothing else, so
      a positive fraction passes as it is. */
  function CheckWSize(v: FieldValue): (c: Check)
    ensures c.ok <==> ParseField(v).None? || ParseField(v).value > 0.0
    ensures c.error == if c.ok then "" else WSizeMessage
  {
    match ParseField(v)
    case Some(size) =>
      if size <= 0.0 then Check(false, WSizeMessage) else Check(true, "")
    case None => Check(true, "")
  }

  /** A whole number typed as a rate passes exactly when it is 1 to 10. */
  lemma TypedWholeRate(i: int)
    ensures CheckSamplingRate(Typed(IntToString(i))).ok <==> 1 <= i <= 10
  {
    JsParseFloatOfIntToString(i);
  }

  /** A whole number typed as a window size passes exactly when it is positive. */
  lemma TypedWholeWSize(i: int)
    ensures CheckWSize(Typed(IntToString(i))).ok <==> i > 0
  {
    JsParseFloatOfIntToString(i);
  }

  /** Text with no number in front parses to NaN and passes both checks. */
  lemma NotANumberPasses(text: string)
    requires JsParseFloat(text).None?
    ensures CheckSamplingRate(Typed(text)).ok && CheckWSize(Typed(text)).ok
  {
  }

  /** The object `saveSettings` sends; the rate and the size go out as the
      inputs hold them, not parsed and not rounded. */
  datatype Settings = Settings(command: string, useMqtt: bool, useAsyncHttp: bool,
                               angryMode: bool, samplingRate: FieldValue,
                               wSize: FieldValue, vol: int)

  class SettingsDialog {
    var angryMode: bool
    var useMqtt: bool
    var useAsyncHttp: bool
    var samplingRate: FieldValue
    var windowSize: FieldValue
    var samplingRateError: string
    var wSizeError: string
    var volume: int

    /** Every switch off, rate 1, window 10, volume 20, no error shown. */
    constructor()
      ensures !angryMode && !useMqtt && !useAsyncHttp
      ensures samplingRate == Number(1.0) && windowSize == Number(10.0) && volume == 20
      ensures samplingRateError == "" && wSizeError == ""
    {
      angryMode, useMqtt, useAsyncHttp := false, false, false;
      samplingRate, windowSize := Number(1.0), Number(10.0);
      samplingRateError, wSizeError := "", "";
      volume := 20;
    }

    method ValidateSamplingRate() returns (ok: bool)
      modifies this
      ensures ok == CheckSamplingRate(samplingRate).ok
      ensures samplingRateError == CheckSamplingRate(samplingRate).error
      ensures angryMode == old(angryMode) && useMqtt == old(useMqtt) && useAsyncHttp == old(useAsyncHttp)
      ensures samplingRate == old(samplingRate) && windowSize == old(windowSize)
      ensures wSizeError == old(wSizeError) && volume == old(volume)
    {
      var check := CheckSamplingRate(samplingRate);
      samplingRateError := check.error;
      ok := check.ok;
    }

    method ValidateWSize() returns (ok: bool)
      modifies this
      ensures ok == CheckWSize(windowSize).ok
      ensures wSizeError == CheckWSize(windowSize).error
      ensures angryMode == old(angryMode) && useMqtt == old(useMqtt) && useAsyncHttp == old(useAsyncHttp)
      ensures samplingRate == old(samplingRate) && windowSize == old(windowSize)
      ensures samplingRateError == old(samplingRateError) && volume == old(volume)
    {
      var check := CheckWSize(windowSize);
      wSizeError := check.error;
      ok := check.ok;
    }

    /** `sendSamplingRate`: sends `parseFloat` of the rate (`None` inside
        is NaN) only when the rate passes its check. */
    method SendSamplingRate() returns (sent: Option<Option<real>>)
      modifies this
      ensures sent.Some? <==> CheckSamplingRate(samplingRate).ok
      ensures sent.Some? ==> sent.value == ParseField(samplingRate)
      ensures samplingRateError == CheckSamplingRate(samplingRate).error
      ensures angryMode == old(angryMode) && useMqtt == old(useMqtt) && useAsyncHttp == old(useAsyncHttp)
      ensures samplingRate == old(samplingRate) && windowSize == old(windowSize)
      ensures wSizeError == old(wSizeError) && volume == old(volume)
    {
      var ok := ValidateSamplingRate();
      if !ok {
        return None;
      }
      sent := Some(ParseField(samplingRate));
    }

    /** `saveSettings`: sends the settings only when both checks pass; a
        failing rate returns before the window size is looked at, so its
        message stays as it was. */
    method SaveSettings() returns (sent: Option<Settings>)
      modifies this
      ensures sent.Some? <==> CheckSamplingRate(samplingRate).ok && CheckWSize(windowSize).ok
      ensures sent.Some? ==> sent.value == Settings("settings", useMqtt, useAsyncHttp, angryMode,
                                                    samplingRate, windowSize, volume)
      ensures samplingRateError == CheckSamplingRate(samplingRate).error
      ensures wSizeError == if CheckSamplingRate(samplingRate).ok then CheckWSize(windowSize).error
                            else old(wSizeError)
      ensures angryMode == old(angryMode) && useMqtt == old(useMqtt) && useAsyncHttp == old(useAsyncHttp)
      ensures samplingRate == old(samplingRate) && windowSize == old(windowSize)
      ensures volume == old(volume)
    {
      var rateOk := ValidateSamplingRate();
      if !rateOk {
        return None;
      }
      var sizeOk := ValidateWSize();
      if !sizeOk {
        return None;
      }
      sent := Some(Settings("settings", useMqtt, useAsyncHttp, angryMode, samplingRate, windowSize, volume));
    }
  }
}
