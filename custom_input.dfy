/**
 * The status logic of EnhancedCustomInput: the error / success flags and
 * messages, the hint, the message line under the box, the status icon, the
 * character counter and the password masking toggle. Colours, fonts,
 * positions, the loading spinner and the icons' bitmaps are not modelled.
 */
module Input {
  import opened Wrappers
  import opened Text

  /** The text box's MaxLength before anyone sets it. */
  const DefaultMaxLength: int := 32767

  /** The glyphs the message line puts before an error, a success and a hint. */
  const ErrorGlyph: char := '\U{26A0}'
  const SuccessGlyph: char := '\U{2713}'
  const HintGlyph: char := '\U{2139}'

  /** Which colour the message line is drawn in: Error, Success or TextSecondary. */
  datatype MessageKind = ErrorMessage | SuccessMessage | HintMessage

  /** The message line: hidden, or showing a text of one kind. */
  datatype MessageLine = Hidden | Shown(kind: MessageKind, text: string)

  /** The status icon beside the box: hidden, the error cross or the success tick. */
  datatype StatusIcon = NoIcon | ErrorIcon | SuccessIcon

  /** The character counter: hidden, or a `length/max` text, in the warning colour or not. */
  datatype CharCounter = CounterHidden | CounterShown(text: string, warning: bool)

  /** The password toggle button's glyph: an eye, or a monkey covering its eyes. */
  datatype ToggleGlyph = Eye | CoveredEyes

  /** A message line text: the glyph, a space, then the message. */
  function Decorated(glyph: char, message: string): (t: string)
    ensures |t| == |message| + 2 && t[0] == glyph && t[1] == ' ' && t[2..] == message
  {
    [glyph, ' '] + message
  }

  /**
   * `UpdateMessage`: an error message wins when the error flag is set, then a
   * success message when the success flag is set, then the hint; an empty
   * message never shows.
   */
  function MessageFor(hasError: bool, errorMessage: string, hasSuccess: bool, successMessage: string, hintMessage: string)
    : (m: MessageLine)
    ensures m.Shown? <==> (hasError && errorMessage != "") || (hasSuccess && successMessage != "") || hintMessage != ""
    ensures m.Shown? && m.kind == ErrorMessage <==> hasError && errorMessage != ""
    ensures m.Shown? && m.kind == SuccessMessage <==> !(hasError && errorMessage != "") && hasSuccess && successMessage != ""
    ensures m.Shown? && m.kind == ErrorMessage ==> |m.text| == |errorMessage| + 2 && m.text[0] == ErrorGlyph && m.text[2..] == errorMessage
    ensures m.Shown? && m.kind == SuccessMessage ==> |m.text| == |successMessage| + 2 && m.text[0] == SuccessGlyph && m.text[2..] == successMessage
    ensures m.Shown? && m.kind == HintMessage ==> |m.text| == |hintMessage| + 2 && m.text[0] == HintGlyph && m.text[2..] == hintMessage
  {
    if hasError && errorMessage != "" then Shown(ErrorMessage, Decorated(ErrorGlyph, errorMessage))
    else if hasSuccess && successMessage != "" then Shown(SuccessMessage, Decorated(SuccessGlyph, successMessage))
    else if hintMessage != "" then Shown(HintMessage, Decorated(HintGlyph, hintMessage))
    else Hidden
  }

  /** `UpdateStatus`: the error icon when in error, else the success icon when successful, else none. */
  function StatusFor(hasError: bool, hasSuccess: bool): (s: StatusIcon)
    ensures s == ErrorIcon <==> hasError
    ensures s == SuccessIcon <==> !hasError && hasSuccess
  {
    if hasError then ErrorIcon else if hasSuccess then SuccessIcon else NoIcon
  }

  /** While the two flags exclude each other, a shown error or success message always comes with its own icon. */
  lemma MessageAgreesWithIcon(hasError: bool, errorMessage: string, hasSuccess: bool, successMessage: string, hintMessage: string)
    requires !(hasError && hasSuccess)
    ensures var m := MessageFor(hasError, errorMessage, hasSuccess, successMessage, hintMessage);
      && (m.Shown? && m.kind == ErrorMessage ==> StatusFor(hasError, hasSuccess) == ErrorIcon)
      && (m.Shown? && m.kind == SuccessMessage ==> StatusFor(hasError, hasSuccess) == SuccessIcon)
      && (StatusFor(hasError, hasSuccess) == NoIcon ==> m.Hidden? || m.kind == HintMessage)
  {
  }

  /** The counter text: the length, a slash, the maximum. */
  function CharCountText(length: nat, max: nat): (t: string)
    ensures '/' in t
    ensures forall i :: 0 <= i < |t| && t[i] != '/' ==> '0' <= t[i] <= '9'
    ensures t[0] == '0' <==> length == 0
  {
    NatToString(length) + "/" + NatToString(max)
  }

  /** The position of the first slash in `t`, or |t| when there is none. */
  function FirstSlash(t: string): (k: nat)
    ensures k <= |t|
    ensures k < |t| ==> t[k] == '/'
    ensures forall j :: 0 <= j < k ==> t[j] != '/'
  {
    if t == [] then 0
    else if t[0] == '/' then 0
    else 1 + FirstSlash(t[1..])
  }

  predicate AllDigits(s: string) {
    forall i :: 0 <= i < |s| ==> '0' <= s[i] <= '9'
  }

  /** Reads a counter text back: two decimal numbers around the first slash. */
  function ParseCharCount(t: string): (r: Option<(nat, nat)>)
    ensures r.Some? ==> FirstSlash(t) < |t| && AllDigits(t[..FirstSlash(t)]) && AllDigits(t[FirstSlash(t) + 1..])
  {
    var k := FirstSlash(t);
    if k < |t| && AllDigits(t[..k]) && AllDigits(t[k + 1..]) then
      Some((DigitsValue(t[..k]), DigitsValue(t[k + 1..])))
    else None
  }

  /** The counter text determines the length and the maximum it was made from. */
  lemma {:induction false} CharCountRoundTrip(length: nat, max: nat)
    ensures ParseCharCount(CharCountText(length, max)) == Some((length, max))
  {
    var a, b := NatToString(length), NatToString(max);
    var t := CharCountText(length, max);
    var k := FirstSlash(t);
    assert t[|a|] == '/';
    assert forall j :: 0 <= j < |a| ==> t[j] == a[j];
    assert k == |a|;
    assert t[..k] == a;
    assert t[k + 1..] == b;
    NatToStringRoundTrip(length);
    NatToStringRoundTrip(max);
  }

  /**
   * `UpdateCharCount`: shown only when enabled and the maximum is positive,
   * in the warning colour once the length passes nine tenths of the maximum.
   * The length is the text box's `Text.Length`, in UTF-16 code units.
   */
  function CounterFor(showCharCount: bool, text: string, maxLength: int): (c: CharCounter)
    ensures c.CounterShown? <==> showCharCount && maxLength > 0
    ensures c.CounterShown? ==> c.text == NatToString(Utf16Length(text)) + "/" + NatToString(maxLength)
    ensures c.CounterShown? ==> ParseCharCount(c.text) == Some((Utf16Length(text), maxLength))
    ensures c.CounterShown? ==> (c.warning <==> 10 * Utf16Length(text) > 9 * maxLength)
  {
    if showCharCount && maxLength > 0 then
      CharCountRoundTrip(Utf16Length(text), maxLength);
      CounterShown(CharCountText(Utf16Length(text), maxLength), 10 * Utf16Length(text) > 9 * maxLength)
    else CounterHidden
  }

  class EnhancedCustomInput {
    var isPasswordField: bool
    var hasError: bool
    var hasSuccess: bool
    var errorMessage: string
    var successMessage: string
    var hintMessage: string
    var showCharCount: bool
    var maxLength: int
    /** The text box's text (`Value`). */
    var text: string
    /** Whether the text box masks its characters. */
    var useSystemPasswordChar: bool
    var passwordToggleVisible: bool
    var toggleGlyph: ToggleGlyph
    var statusIcon: StatusIcon
    var message: MessageLine
    var charCounter: CharCounter
    /** The argument of every ValueChanged event raised so far. */
    ghost var valueChanged: seq<string>

    /**
     * Error and success never hold together, and the icon, the message line
     * and the toggle's visibility always reflect the current flags and texts.
     */
    ghost predicate Valid()
      reads this
    {
      && !(hasError && hasSuccess)
      && statusIcon == StatusFor(hasError, hasSuccess)
      && message == MessageFor(hasError, errorMessage, hasSuccess, successMessage, hintMessage)
      && passwordToggleVisible == isPasswordField
    }

    /** The state InitializeComponent leaves: empty, unmasked, no status, nothing shown below the box. */
    constructor ()
      ensures Valid()
      ensures !isPasswordField && !hasError && !hasSuccess && !showCharCount
      ensures errorMessage == "" && successMessage == "" && hintMessage == "" && text == ""
      ensures maxLength == DefaultMaxLength && !useSystemPasswordChar && toggleGlyph == Eye
      ensures statusIcon == NoIcon && message == Hidden && charCounter == CounterHidden
      ensures valueChanged == []
    {
      isPasswordField := false;
      hasError := false;
      hasSuccess := false;
      errorMessage := "";
      successMessage := "";
      hintMessage := "";
      showCharCount := false;
      maxLength := DefaultMaxLength;
      text := "";
      useSystemPasswordChar := false;
      passwordToggleVisible := false;
      toggleGlyph := Eye;
      statusIcon := NoIcon;
      message := Hidden;
      charCounter := CounterHidden;
      valueChanged := [];
    }

    /** `UpdatePasswordField`: masking follows the field kind (the toggle button is never checked). */
    method UpdatePasswordField()
      modifies this`useSystemPasswordChar, this`passwordToggleVisible
      ensures useSystemPasswordChar == isPasswordField && passwordToggleVisible == isPasswordField
    {
      useSystemPasswordChar := isPasswordField;
      passwordToggleVisible := isPasswordField;
    }

    /** `UpdateMessage`. */
    method UpdateMessage()
      modifies this`message
      ensures message == MessageFor(hasError, errorMessage, hasSuccess, successMessage, hintMessage)
    {
      if hasError && errorMessage != "" {
        message := Shown(ErrorMessage, Decorated(ErrorGlyph, errorMessage));
      } else if hasSuccess && successMessage != "" {
        message := Shown(SuccessMessage, Decorated(SuccessGlyph, successMessage));
      } else if hintMessage != "" {
        message := Shown(HintMessage, Decorated(HintGlyph, hintMessage));
      } else {
        message := Hidden;
      }
    }

    /** `UpdateStatus`: the icon, then the message line. */
    method UpdateStatus()
      modifies this`statusIcon, this`message
      ensures statusIcon == StatusFor(hasError, hasSuccess)
      ensures message == MessageFor(hasError, errorMessage, hasSuccess, successMessage, hintMessage)
    {
      if hasError {
        statusIcon := ErrorIcon;
      } else if hasSuccess {
        statusIcon := SuccessIcon;
      } else {
        statusIcon := NoIcon;
      }
      UpdateMessage();
    }

    /** `UpdateCharCount`. */
    method UpdateCharCount()
      modifies this`charCounter
      ensures charCounter == CounterFor(showCharCount, text, maxLength)
    {
      if showCharCount && maxLength > 0 {
        var currentLength := Utf16Length(text);
        charCounter := CounterShown(CharCountText(currentLength, maxLength), 10 * currentLength > 9 * maxLength);
      } else {
        charCounter := CounterHidden;
      }
    }

    /** `IsPasswordField` setter. */
    method SetIsPasswordField(b: bool)
      requires Valid()
      modifies this`isPasswordField, this`useSystemPasswordChar, this`passwordToggleVisible
      ensures Valid()
      ensures isPasswordField == b && useSystemPasswordChar == b && passwordToggleVisible == b
      ensures hasError == old(hasError) && hasSuccess == old(hasSuccess) && message == old(message)
      ensures text == old(text) && charCounter == old(charCounter) && valueChanged == old(valueChanged)
    {
      isPasswordField := b;
      UpdatePasswordField();
    }

    /** `HasError` setter: setting the error flag, either way, clears the success flag. */
    method SetHasError(b: bool)
      requires passwordToggleVisible == isPasswordField
      modifies this`hasError, this`hasSuccess, this`statusIcon, this`message
      ensures Valid()
      ensures hasError == b && !hasSuccess
      ensures errorMessage == old(errorMessage) && successMessage == old(successMessage) && hintMessage == old(hintMessage)
      ensures isPasswordField == old(isPasswordField) && useSystemPasswordChar == old(useSystemPasswordChar)
      ensures text == old(text) && charCounter == old(charCounter) && valueChanged == old(valueChanged)
      ensures showCharCount == old(showCharCount) && maxLength == old(maxLength) && toggleGlyph == old(toggleGlyph)
    {
      hasError := b;
      hasSuccess := false;
      UpdateStatus();
    }

    /** `HasSuccess` setter: setting the success flag, either way, clears the error flag. */
    method SetHasSuccess(b: bool)
      requires passwordToggleVisible == isPasswordField
      modifies this`hasError, this`hasSuccess, this`statusIcon, this`message
      ensures Valid()
      ensures hasSuccess == b && !hasError
      ensures errorMessage == old(errorMessage) && successMessage == old(successMessage) && hintMessage == old(hintMessage)
      ensures isPasswordField == old(isPasswordField) && useSystemPasswordChar == old(useSystemPasswordChar)
      ensures text == old(text) && charCounter == old(charCounter) && valueChanged == old(valueChanged)
      ensures showCharCount == old(showCharCount) && maxLength == old(maxLength) && toggleGlyph == old(toggleGlyph)
    {
      hasSuccess := b;
      hasError := false;
      UpdateStatus();
    }

    /** `ErrorMessage` setter: the error flag becomes "the message is not empty". */
    method SetErrorMessage(m: string)
      requires Valid()
      modifies this`errorMessage, this`hasError, this`hasSuccess, this`statusIcon, this`message
      ensures Valid()
      ensures errorMessage == m && hasError == (m != "") && !hasSuccess
      ensures m != "" ==> message == Shown(ErrorMessage, Decorated(ErrorGlyph, m)) && statusIcon == ErrorIcon
      ensures m == "" ==> statusIcon == NoIcon && (message.Hidden? || message.kind == HintMessage)
      ensures successMessage == old(successMessage) && hintMessage == old(hintMessage)
      ensures text == old(text) && charCounter == old(charCounter) && valueChanged == old(valueChanged)
    {
      errorMessage := m;
      SetHasError(m != "");
    }

    /** `SuccessMessage` setter: the success flag becomes "the message is not empty". */
    method SetSuccessMessage(m: string)
      requires Valid()
      modifies this`successMessage, this`hasError, this`hasSuccess, this`statusIcon, this`message
      ensures Valid()
      ensures successMessage == m && hasSuccess == (m != "") && !hasError
      ensures m != "" ==> message == Shown(SuccessMessage, Decorated(SuccessGlyph, m)) && statusIcon == SuccessIcon
      ensures m == "" ==> statusIcon == NoIcon && (message.Hidden? || message.kind == HintMessage)
      ensures errorMessage == old(errorMessage) && hintMessage == old(hintMessage)
      ensures text == old(text) && charCounter == old(charCounter) && valueChanged == old(valueChanged)
    {
      successMessage := m;
      SetHasSuccess(m != "");
    }

    /** `HintMessage` setter: shown only when no error or success message takes precedence. */
    method SetHintMessage(m: string)
      requires Valid()
      modifies this`hintMessage, this`message
      ensures Valid()
      ensures hintMessage == m
      ensures hasError == old(hasError) && hasSuccess == old(hasSuccess) && statusIcon == old(statusIcon)
      ensures errorMessage == old(errorMessage) && successMessage == old(successMessage)
      ensures text == old(text) && charCounter == old(charCounter) && valueChanged == old(valueChanged)
    {
      hintMessage := m;
      UpdateMessage();
    }

    /** `ShowCharCount` setter. */
    method SetShowCharCount(b: bool)
      requires Valid()
      modifies this`showCharCount, this`charCounter
      ensures Valid()
      ensures showCharCount == b && charCounter == CounterFor(b, text, maxLength)
      ensures hasError == old(hasError) && hasSuccess == old(hasSuccess) && message == old(message)
      ensures text == old(text) && maxLength == old(maxLength) && valueChanged == old(valueChanged)
    {
      showCharCount := b;
      UpdateCharCount();
    }

    /** `MaxLength` setter: the counter is NOT refreshed until the next text change or ShowCharCount assignment. */
    method SetMaxLength(n: int)
      requires Valid()
      modifies this`maxLength
      ensures Valid()
      ensures maxLength == n && charCounter == old(charCounter)
      ensures hasError == old(hasError) && hasSuccess == old(hasSuccess) && message == old(message)
      ensures text == old(text) && showCharCount == old(showCharCount) && valueChanged == old(valueChanged)
    {
      maxLength := n;
    }

    /**
     * `OnTextChanged`, once the box holds `newText`: the counter is refreshed,
     * typing a non-empty text clears an error, and ValueChanged is raised.
     */
    method OnTextChanged(newText: string)
      requires Valid()
      modifies this`text, this`charCounter, this`hasError, this`hasSuccess, this`statusIcon, this`message, this`valueChanged
      ensures Valid()
      ensures text == newText && charCounter == CounterFor(showCharCount, newText, maxLength)
      ensures old(hasError) && newText != "" ==> !hasError && !hasSuccess && statusIcon == NoIcon
      ensures !(old(hasError) && newText != "") ==> hasError == old(hasError) && hasSuccess == old(hasSuccess)
      ensures errorMessage == old(errorMessage) && successMessage == old(successMessage) && hintMessage == old(hintMessage)
      ensures showCharCount == old(showCharCount) && maxLength == old(maxLength)
      ensures valueChanged == old(valueChanged) + [newText]
    {
      text := newText;
      UpdateCharCount();
      if hasError && text != "" {
        SetHasError(false);
      }
      valueChanged := valueChanged + [text];
    }

    /** `OnPasswordToggleClick`: flips masking; the glyph is the eye exactly when masked. */
    method OnPasswordToggleClick()
      requires Valid()
      modifies this`useSystemPasswordChar, this`toggleGlyph
      ensures Valid()
      ensures useSystemPasswordChar == !old(useSystemPasswordChar)
      ensures toggleGlyph == (if useSystemPasswordChar then Eye else CoveredEyes)
      ensures isPasswordField == old(isPasswordField) && text == old(text) && message == old(message)
      ensures hasError == old(hasError) && hasSuccess == old(hasSuccess) && valueChanged == old(valueChanged)
    {
      useSystemPasswordChar := !useSystemPasswordChar;
      toggleGlyph := if useSystemPasswordChar then Eye else CoveredEyes;
    }

    /** `SetError`. */
    method SetError(m: string)
      requires Valid()
      modifies this`errorMessage, this`hasError, this`hasSuccess, this`statusIcon, this`message
      ensures Valid()
      ensures errorMessage == m && hasError == (m != "") && !hasSuccess
      ensures m != "" ==> message == Shown(ErrorMessage, Decorated(ErrorGlyph, m)) && statusIcon == ErrorIcon
      ensures successMessage == old(successMessage) && hintMessage == old(hintMessage) && text == old(text)
    {
      SetErrorMessage(m);
    }

    /** `SetSuccess`. */
    method SetSuccess(m: string)
      requires Valid()
      modifies this`successMessage, this`hasError, this`hasSuccess, this`statusIcon, this`message
      ensures Valid()
      ensures successMessage == m && hasSuccess == (m != "") && !hasError
      ensures m != "" ==> message == Shown(SuccessMessage, Decorated(SuccessGlyph, m)) && statusIcon == SuccessIcon
      ensures errorMessage == old(errorMessage) && hintMessage == old(hintMessage) && text == old(text)
    {
      SetSuccessMessage(m);
    }

    /** `ClearError`: also clears a success status, since it assigns the error flag. */
    method ClearError()
      requires Valid()
      modifies this`errorMessage, this`hasError, this`hasSuccess, this`statusIcon, this`message
      ensures Valid()
      ensures errorMessage == "" && !hasError && !hasSuccess && statusIcon == NoIcon
      ensures message == MessageFor(false, "", false, successMessage, hintMessage)
      ensures successMessage == old(successMessage) && hintMessage == old(hintMessage) && text == old(text)
    {
      SetErrorMessage("");
    }

    /** `ClearSuccess`: also clears an error status, since it assigns the success flag. */
    method ClearSuccess()
      requires Valid()
      modifies this`successMessage, this`hasError, this`hasSuccess, this`statusIcon, this`message
      ensures Valid()
      ensures successMessage == "" && !hasError && !hasSuccess && statusIcon == NoIcon
      ensures message == MessageFor(false, errorMessage, false, "", hintMessage)
      ensures errorMessage == old(errorMessage) && hintMessage == old(hintMessage) && text == old(text)
    {
      SetSuccessMessage("");
    }
  }
}
