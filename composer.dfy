/**
 * The chat composer (src/components/chat/Composer.tsx): a textarea holding
 * the draft, submitted with the send button or Enter. The `disabled` prop
 * is passed to each handler, as the component reads it when the handler
 * runs; `onSend` is the returned text.
 */
module ChatComposer {
  import opened MarketingChat
  import opened JsText

  /** The textarea's tallest height in pixels. */
  const MaxHeight := 120

  /** The textarea's inline `style.height`: never written, `'auto'`, or a
      pixel count. */
  datatype Height = Unset | Auto | Px(pixels: nat)

  /** What `submit` hands to `onSend` for a draft, if anything. */
  function SubmitPayload(value: string, disabled: bool): (sent: Option<string>)
    ensures sent.None? <==> disabled || AllWhitespace(value)
    ensures sent.Some? ==> sent.value == Trim(value) && sent.value != []
  {
    var trimmed := Trim(value);
    if !Truthy(trimmed) || disabled then None else Some(trimmed)
  }

  /** The send button's `disabled` attribute. */
  function SendButtonDisabled(value: string, disabled: bool): (off: bool)
    ensures off <==> disabled || AllWhitespace(value)
  {
    disabled || !Truthy(Trim(value))
  }

  /** The button is clickable exactly when clicking it sends something. */
  lemma ButtonMatchesSubmit(value: string, disabled: bool)
    ensures SendButtonDisabled(value, disabled) <==> SubmitPayload(value, disabled).None?
  {
  }

  /** What is sent is already trimmed: neither end is whitespace. */
  lemma PayloadIsTrimmed(value: string, disabled: bool)
    requires SubmitPayload(value, disabled).Some?
    ensures var t := SubmitPayload(value, disabled).value;
            && !IsWhitespace(t[0]) && !IsWhitespace(t[|t| - 1])
            && Trim(t) == t
  {
    TrimIdempotent(value);
  }

  /** `Math.min(scrollHeight, 120)`. */
  function ClampHeight(scrollHeight: nat): (h: nat)
    ensures h <= MaxHeight && h <= scrollHeight
    ensures h == scrollHeight || h == MaxHeight
  {
    if scrollHeight < MaxHeight then scrollHeight else MaxHeight
  }

  class Composer {
    var value: string
    var height: Height

    /** An empty draft and a textarea whose height was never set. */
    constructor ()
      ensures value == [] && height == Unset
    {
      value := [];
      height := Unset;
    }

    /** `onChange`: the draft becomes the textarea's text. */
    method Change(v: string)
      modifies this`value
      ensures value == v
    {
      value := v;
    }

    /** `submit`: a blank draft or a disabled composer sends nothing and
        keeps the draft; otherwise the trimmed draft is sent once, the draft
        is cleared and the height goes back to `'auto'`. */
    method Submit(disabled: bool) returns (sent: Option<string>)
      modifies this
      ensures sent == SubmitPayload(old(value), disabled)
      ensures sent.None? ==> value == old(value) && height == old(height)
      ensures sent.Some? ==> value == [] && height == Auto
    {
      var trimmed := Trim(value);
      if !Truthy(trimmed) || disabled {
        return None;
      }
      sent := Some(trimmed);
      value := [];
      height := Auto;
    }

    /** `handleKeyDown`: Enter without Shift suppresses the newline and
        submits; every other key, Shift+Enter included, is left to the
        textarea. */
    method KeyDown(key: string, shift: bool, disabled: bool) returns (prevented: bool, sent: Option<string>)
      modifies this
      ensures prevented <==> key == "Enter" && !shift
      ensures prevented ==> sent == SubmitPayload(old(value), disabled)
      ensures !prevented ==> sent == None && value == old(value) && height == old(height)
      ensures prevented && sent.Some? ==> value == [] && height == Auto
      ensures prevented && sent.None? ==> value == old(value) && height == old(height)
    {
      prevented := key == "Enter" && !shift;
      sent := None;
      if prevented {
        sent := Submit(disabled);
      }
    }

    /** `handleInput`: reset to `'auto'`, then fit the content up to the
        cap. */
    method Input(scrollHeight: nat)
      modifies this`height
      ensures height == Px(ClampHeight(scrollHeight))
      ensures height.pixels <= MaxHeight
    {
      height := Auto;
      height := Px(ClampHeight(scrollHeight));
    }
  }

  /** A second submit right after a successful one sends nothing: the draft
      is empty. */
  method SubmitTwice(c: Composer, disabled: bool) returns (first: Option<string>, second: Option<string>)
    modifies c
    ensures first == SubmitPayload(old(c.value), disabled)
    ensures first.Some? ==> second == None
  {
    first := c.Submit(disabled);
    second := c.Submit(disabled);
  }
}
