/**
 * The text computations of the chat screen: the blank-input guard, the chat
 * title, the reversed echo of the simulated reply and the decimal ids.
 */
module ChatText {

  /** The characters JavaScript's `String.prototype.trim` strips: white space and line terminators. */
  predicate IsJsWhitespace(c: char)
  {
    c == '\t' || c == '\n' || c == '\U{000B}' || c == '\U{000C}' || c == '\r' ||
    c == ' ' || c == '\U{00A0}' || c == '\U{1680}' ||
    ('\U{2000}' <= c <= '\U{200A}') ||
    c == '\U{2028}' || c == '\U{2029}' || c == '\U{202F}' || c == '\U{205F}' ||
    c == '\U{3000}' || c == '\U{FEFF}'
  }

  /** How many white-space characters `s` starts with. */
  function LeadingWhitespace(s: string): (n: nat)
    ensures n <= |s|
    ensures forall i :: 0 <= i < n ==> IsJsWhitespace(s[i])
    ensures n < |s| ==> !IsJsWhitespace(s[n])
  {
    if s == [] || !IsJsWhitespace(s[0]) then 0 else 1 + LeadingWhitespace(s[1..])
  }

  /** How many white-space characters `s` ends with. */
  function TrailingWhitespace(s: string): (n: nat)
    ensures n <= |s|
    ensures forall i :: |s| - n <= i < |s| ==> IsJsWhitespace(s[i])
    ensures n < |s| ==> !IsJsWhitespace(s[|s| - 1 - n])
  {
    if s == [] || !IsJsWhitespace(s[|s| - 1]) then 0 else 1 + TrailingWhitespace(s[..|s| - 1])
  }

  /** JavaScript's `s.trim()`: `s` without its leading and trailing white space. */
  function Trim(s: string): (r: string)
    ensures |r| <= |s|
    ensures r != [] ==> !IsJsWhitespace(r[0]) && !IsJsWhitespace(r[|r| - 1])
  {
    var start := LeadingWhitespace(s);
    if start == |s| then ""
    else
      var end := |s| - TrailingWhitespace(s);
      assert start < end;
      s[start..end]
  }

  /**
   * What `Trim` returns: a slice of `s` with only white space cut off each end,
   * and (together with the contract of `Trim`) no white space left at either end.
   */
  lemma TrimIsSlice(s: string)
    ensures exists a, b :: 0 <= a <= b <= |s| && Trim(s) == s[a..b] &&
              (forall i :: 0 <= i < a ==> IsJsWhitespace(s[i])) &&
              (forall i :: b <= i < |s| ==> IsJsWhitespace(s[i]))
  {
    var start := LeadingWhitespace(s);
    if start == |s| {
      assert Trim(s) == s[|s|..|s|];
    } else {
      var end := |s| - TrailingWhitespace(s);
      assert !IsJsWhitespace(s[start]);
      assert Trim(s) == s[start..end];
    }
  }

  /** The send guard `!inputValue.trim()`: the trimmed text is the empty, falsy, string. */
  predicate IsBlank(s: string)
  {
    Trim(s) == ""
  }

  /** The guard refuses exactly the texts made only of white space (the empty text included). */
  lemma BlankIffAllWhitespace(s: string)
    ensures IsBlank(s) <==> forall i :: 0 <= i < |s| ==> IsJsWhitespace(s[i])
  {
    var start := LeadingWhitespace(s);
    if start < |s| {
      assert !IsJsWhitespace(s[start]);
    }
  }

  /** Longest prefix of the text kept in a chat title. */
  const TitleLength := 30

  /** The marker appended to a shortened title. */
  const Ellipsis := "..."

  /** The title of a new chat: `text.slice(0, 30) + (text.length > 30 ? '...' : '')`. */
  function Title(text: string): (title: string)
    ensures |title| <= TitleLength + |Ellipsis|
    ensures |text| <= TitleLength ==> title == text
    ensures |text| > TitleLength ==> |title| == TitleLength + |Ellipsis| && title[..TitleLength] == text[..TitleLength] && title[TitleLength..] == Ellipsis
  {
    (if |text| <= TitleLength then text else text[..TitleLength]) +
    (if |text| > TitleLength then Ellipsis else "")
  }

  /**
   * A title equals the text it was made from exactly when the text is short
   * enough, or is 33 characters that already end in the ellipsis.
   */
  lemma TitleIsTextIff(text: string)
    ensures Title(text) == text <==>
              |text| <= TitleLength || (|text| == TitleLength + |Ellipsis| && text[TitleLength..] == Ellipsis)
  {
    if |text| > TitleLength && Title(text) == text {
      assert |Title(text)| == TitleLength + |Ellipsis|;
    }
    if |text| == TitleLength + |Ellipsis| && text[TitleLength..] == Ellipsis {
      assert text == text[..TitleLength] + text[TitleLength..];
    }
  }

  /** `s.split('').reverse().join('')`. */
  function Reverse(s: string): (r: string)
    ensures |r| == |s|
    ensures forall k :: 0 <= k < |s| ==> r[k] == s[|s| - 1 - k]
  {
    if s == [] then [] else Reverse(s[1..]) + [s[0]]
  }

  /** Reversing twice gives the text back. */
  lemma ReverseInvolutive(s: string)
    ensures Reverse(Reverse(s)) == s
  {
    assert forall k :: 0 <= k < |s| ==> Reverse(Reverse(s))[k] == s[k];
  }

  /** The five canned openings of the simulated reply. */
  const Openings: seq<string> := [
    "That's an interesting question! Let me help you with that.",
    "I understand what you're asking. Here's my perspective:",
    "Great question! Based on what you've mentioned:",
    "I can definitely help with that. Here's what I think:",
    "That's a thoughtful inquiry. Let me break it down:"
  ]

  /** The fixed closing sentence of the simulated reply. */
  const Disclaimer := ". This is a simulated response for demonstration purposes."

  /**
   * The simulated reply to `message` when the random draw picked opening `pick`
   * (`Math.floor(Math.random() * 5)` is always one of 0 to 4).
   */
  function SimulatedReply(message: string, pick: nat): (reply: string)
    requires pick < |Openings|
    ensures |reply| == |Openings[pick]| + 1 + |message| + |Disclaimer|
  {
    Openings[pick] + " " + Reverse(message) + Disclaimer
  }

  /** The reply echoes the message reversed between the opening and the disclaimer, so the message can be read back. */
  lemma SimulatedReplyEchoes(message: string, pick: nat)
    requires pick < |Openings|
    ensures var reply := SimulatedReply(message, pick);
            var start := |Openings[pick]| + 1;
            reply[..start] == Openings[pick] + " " &&
            reply[|reply| - |Disclaimer|..] == Disclaimer &&
            Reverse(reply[start..|reply| - |Disclaimer|]) == message
  {
    var reply := SimulatedReply(message, pick);
    var start := |Openings[pick]| + 1;
    assert reply[start..|reply| - |Disclaimer|] == Reverse(message);
    ReverseInvolutive(message);
  }

  /** The character of a decimal digit. */
  function DigitChar(d: nat): (c: char)
    requires d < 10
    ensures '0' <= c <= '9'
  {
    ('0' as int + d) as char
  }

  /** The value of a decimal digit character. */
  function DigitValue(c: char): (d: nat)
    requires '0' <= c <= '9'
    ensures d < 10
  {
    (c as int - '0' as int) as nat
  }

  /** `n.toString()` for a non-negative integer such as `Date.now()`. */
  function DecimalString(n: nat): (s: string)
    ensures |s| >= 1
    ensures forall i :: 0 <= i < |s| ==> '0' <= s[i] <= '9'
    ensures s[0] == '0' ==> n == 0
  {
    if n < 10 then [DigitChar(n)] else DecimalString(n / 10) + [DigitChar(n % 10)]
  }

  /** The number a string of decimal digits denotes. */
  function DecimalValue(s: string): nat
    requires forall i :: 0 <= i < |s| ==> '0' <= s[i] <= '9'
  {
    if s == [] then 0 else DecimalValue(s[..|s| - 1]) * 10 + DigitValue(s[|s| - 1])
  }

  /** Reading an id back gives the clock value it was made from. */
  lemma {:induction false} DecimalRoundTrip(n: nat)
    ensures DecimalValue(DecimalString(n)) == n
  {
    var s := DecimalString(n);
    if n >= 10 {
      assert s[..|s| - 1] == DecimalString(n / 10);
      assert DigitValue(s[|s| - 1]) == n % 10;
      DecimalRoundTrip(n / 10);
    } else {
      assert DigitValue(s[0]) == n;
    }
  }

  /** Ids made from different clock values differ. */
  lemma DecimalInjective(m: nat, n: nat)
    ensures DecimalString(m) == DecimalString(n) <==> m == n
  {
    DecimalRoundTrip(m);
    DecimalRoundTrip(n);
  }

  /** The decimal form of any integer: a minus sign exactly when negative, then digits. */
  function IntegerString(n: int): (s: string)
    ensures |s| >= 1 && (s[0] == '-' <==> n < 0)
    ensures n < 0 ==> |s| >= 2
    ensures forall i :: 0 <= i < |s| && !(i == 0 && n < 0) ==> '0' <= s[i] <= '9'
    ensures s[if n < 0 then 1 else 0] == '0' ==> n == 0
  {
    if n < 0 then "-" + DecimalString(-n) else DecimalString(n)
  }

  /** The digits of `IntegerString(n)` denote the magnitude of `n`. */
  lemma IntegerStringValue(n: int)
    ensures var s := IntegerString(n);
            DecimalValue(if n < 0 then s[1..] else s) == if n < 0 then -n else n
  {
    if n < 0 {
      assert IntegerString(n)[1..] == DecimalString(-n);
      DecimalRoundTrip(-n);
    } else {
      DecimalRoundTrip(n);
    }
  }

  /** Different integers print differently. */
  lemma IntegerStringInjective(m: int, n: int)
    ensures IntegerString(m) == IntegerString(n) <==> m == n
  {
    IntegerStringValue(m);
    IntegerStringValue(n);
  }
}
