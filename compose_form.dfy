/**
 * The client-side rules of the compose form. static/publisher.js and
 * static/script.js hold the same validateForm, updateCharCount,
 * updateFieldCharCount and toggleAltTextInput; publisher.js also wires the
 * submit guard. Times are milliseconds since the epoch.
 */
module ComposeForm {
  import opened Wrappers
  import opened Text

  const FiveMinutesMs: int := 5 * 60000

  /**
   * validateForm. `value` is the scheduled_at input's value and `scheduledMs`
   * what `new Date(value)` holds: None for an Invalid Date, whose comparison
   * with a date is false, so it is not rejected.
   */
  function ValidateForm(value: string, scheduledMs: Option<int>, nowMs: int): (ok: bool)
    ensures value == "" ==> ok
    ensures value != "" && scheduledMs.Some? ==> (ok <==> scheduledMs.value > nowMs + FiveMinutesMs)
    ensures scheduledMs.None? ==> ok
  {
    if value != "" then
      match scheduledMs
      case Some(t) => !(t <= nowMs + FiveMinutesMs)
      case None => true
    else true
  }

  /** A time exactly five minutes ahead is rejected; one millisecond later is accepted. */
  lemma FiveMinuteBoundary(value: string, nowMs: int)
    requires value != ""
    ensures !ValidateForm(value, Some(nowMs + FiveMinutesMs), nowMs)
    ensures ValidateForm(value, Some(nowMs + FiveMinutesMs + 1), nowMs)
  {
  }

  /** JavaScript's `.length`: UTF-16 code units, two for a character outside the BMP. */
  function Utf16Length(s: string): (n: nat)
    ensures |s| <= n <= 2 * |s|
    decreases |s|
  {
    if s == [] then 0 else (if s[0] as int > 0xFFFF then 2 else 1) + Utf16Length(s[1..])
  }

  lemma {:induction false} Utf16LengthOfBmp(s: string)
    requires forall i :: 0 <= i < |s| ==> s[i] as int <= 0xFFFF
    ensures Utf16Length(s) == |s|
    decreases |s|
  {
    if s != [] {
      Utf16LengthOfBmp(s[1..]);
    }
  }

  /** `${length}/${maxLength}`; an absent maxlength attribute is null and prints as "null". */
  function CounterText(length: nat, maxLength: Option<string>): (s: string)
    ensures |NatToString(length)| < |s| && s[|NatToString(length)|] == '/'
    ensures forall i :: 0 <= i < |NatToString(length)| ==> IsDigit(s[i])
  {
    NatToString(length) + "/" + (match maxLength case Some(m) => m case None => "null")
  }

  /** The counter reads back: the digits before the first '/' are the length, the rest is the limit. */
  lemma CounterTextReadsBack(length: nat, maxLength: Option<string>)
    ensures var t := CounterText(length, maxLength);
            var k := |NatToString(length)|;
            && k < |t| && t[k] == '/' && '/' !in t[..k]
            && ParseNat(t[..k]) == length
            && t[k + 1..] == (match maxLength case Some(m) => m case None => "null")
  {
    var t := CounterText(length, maxLength);
    var k := |NatToString(length)|;
    assert t[..k] == NatToString(length);
    ParseNatToString(length);
  }

  /** The part of a DOM element these scripts read or write. */
  class Element {
    var value: string
    /** getAttribute('maxlength'): None for null. */
    var maxLength: Option<string>
    var textContent: string
    /** style.display */
    var display: string
    /** A file input's FileList (file names); None for null. */
    var files: Option<seq<string>>

    constructor (value: string, maxLength: Option<string>)
      ensures this.value == value && this.maxLength == maxLength
      ensures textContent == "" && display == "" && files == None
    {
      this.value := value;
      this.maxLength := maxLength;
      textContent := "";
      display := "";
      files := None;
    }
  }

  /** updateFieldCharCount: writes "<length>/<maxlength>" when both elements exist, nothing otherwise. */
  method UpdateFieldCharCount(field: Element?, counter: Element?)
    modifies counter
    ensures counter != null && field != null ==>
      counter.textContent == CounterText(Utf16Length(field.value), field.maxLength)
    ensures counter != null && field == null ==> counter.textContent == old(counter.textContent)
    ensures counter != null ==>
      counter.value == old(counter.value) && counter.maxLength == old(counter.maxLength) &&
      counter.display == old(counter.display) && counter.files == old(counter.files)
  {
    if field != null && counter != null {
      counter.textContent := CounterText(Utf16Length(field.value), field.maxLength);
    }
  }

  /**
   * updateCharCount: the combined content + content-warning count, written
   * only when the content, CW and counter elements all exist, then the
   * alt-text count. The two counters are found by different element ids.
   */
  method UpdateCharCount(content: Element?, cw: Element?, counter: Element?, altText: Element?, altCounter: Element?)
    requires counter == null || counter != altCounter
    modifies counter, altCounter
    ensures counter != null && content != null && cw != null ==>
      counter.textContent == CounterText(Utf16Length(content.value) + Utf16Length(cw.value), content.maxLength)
    ensures counter != null && (content == null || cw == null) ==> counter.textContent == old(counter.textContent)
    ensures altCounter != null && altText != null ==>
      altCounter.textContent == CounterText(Utf16Length(altText.value), altText.maxLength)
    ensures altCounter != null && altText == null ==> altCounter.textContent == old(altCounter.textContent)
    ensures counter != null ==>
      counter.value == old(counter.value) && counter.maxLength == old(counter.maxLength) &&
      counter.display == old(counter.display) && counter.files == old(counter.files)
    ensures altCounter != null ==>
      altCounter.value == old(altCounter.value) && altCounter.maxLength == old(altCounter.maxLength) &&
      altCounter.display == old(altCounter.display) && altCounter.files == old(altCounter.files)
  {
    if content != null && cw != null && counter != null {
      var total := Utf16Length(content.value) + Utf16Length(cw.value);
      counter.textContent := CounterText(total, content.maxLength);
    }
    UpdateFieldCharCount(altText, altCounter);
  }

  /** `imageInput.files && imageInput.files[0]`. */
  predicate FileSelected(imageInput: Element)
    reads imageInput
  {
    imageInput.files.Some? && |imageInput.files.value| > 0
  }

  /**
   * toggleAltTextInput: the alt-text container is shown ('flex') exactly when
   * a file is selected and hidden ('none') otherwise; with no container the
   * assignment throws a TypeError.
   */
  method ToggleAltTextInput(imageInput: Element, container: Element?) returns (threw: bool)
    modifies container
    ensures threw <==> container == null
    ensures container != null ==> container.display == if old(FileSelected(imageInput)) then "flex" else "none"
    ensures container != null ==>
      container.value == old(container.value) && container.maxLength == old(container.maxLength) &&
      container.textContent == old(container.textContent) && container.files == old(container.files)
  {
    if container == null {
      return true;
    }
    threw := false;
    if FileSelected(imageInput) {
      container.display := "flex";
    } else {
      container.display := "none";
    }
  }

  class SubmitEvent {
    var defaultPrevented: bool

    constructor ()
      ensures !defaultPrevented
    {
      defaultPrevented := false;
    }
  }

  /** The submit listener: preventDefault() exactly when validateForm() is false. */
  method OnSubmit(event: SubmitEvent, value: string, scheduledMs: Option<int>, nowMs: int)
    modifies event
    ensures event.defaultPrevented == (old(event.defaultPrevented) || !ValidateForm(value, scheduledMs, nowMs))
  {
    if !ValidateForm(value, scheduledMs, nowMs) {
      event.defaultPrevented := true;
    }
  }
}
