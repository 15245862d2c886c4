/** Shared vocabulary of both chat widget variants: the message log entries,
    the fixed greeting, and JavaScript's `String.prototype.trim`, which both
    `handleSend` handlers use to decide whether the draft is worth sending. */
module ChatCommon {

  /** Who a bubble in the log belongs to (the `user` field of a message object). */
  datatype Sender = User | Bot

  /** One entry of the message log; entries are never edited once appended. */
  datatype Message = Message(sender: Sender, text: string)

  /** The bot message that seeds the log when the panel is first opened or cleared. */
  const Greeting: string := "How can I assist you today?"

  function UserSays(text: string): Message { Message(User, text) }

  function BotSays(text: string): Message { Message(Bot, text) }

  /** The characters `trim` strips: ECMAScript WhiteSpace (tab, vertical tab,
      form feed, space, no-break space, byte order mark and the Unicode space
      separators) and LineTerminator (line feed, carriage return, line and
      paragraph separators). */
  predicate IsWhitespace(c: char)
  {
    || c == '\t' || c == '\n' || c == '\U{000B}' || c == '\U{000C}' || c == '\r'
    || c == ' ' || c == '\U{00A0}' || c == '\U{1680}'
    || ('\U{2000}' <= c <= '\U{200A}')
    || c == '\U{2028}' || c == '\U{2029}' || c == '\U{202F}' || c == '\U{205F}'
    || c == '\U{3000}' || c == '\U{FEFF}'
  }

  /** A draft made only of whitespace (the empty draft included). */
  predicate IsBlank(s: string)
  {
    forall i :: 0 <= i < |s| ==> IsWhitespace(s[i])
  }

  /** Drops the leading whitespace: the result is the suffix of `s` that
      starts at its first non-whitespace character. */
  function TrimStart(s: string): (r: string)
    ensures |r| <= |s| && r == s[|s| - |r|..]
    ensures IsBlank(s[..|s| - |r|])
    ensures r == [] || !IsWhitespace(r[0])
  {
    if s != [] && IsWhitespace(s[0]) then TrimStart(s[1..]) else s
  }

  /** Drops the trailing whitespace: the result is the prefix of `s` that
      ends at its last non-whitespace character. */
  function TrimEnd(s: string): (r: string)
    ensures |r| <= |s| && r == s[..|r|]
    ensures IsBlank(s[|r|..])
    ensures r == [] || !IsWhitespace(r[|r| - 1])
  {
    if s != [] && IsWhitespace(s[|s| - 1]) then TrimEnd(s[..|s| - 1]) else s
  }

  /** `s.trim()`: empty (falsy) exactly when the draft is blank, which is
      the test both `handleSend` handlers make. */
  function Trim(s: string): (r: string)
    ensures |r| <= |s|
    ensures r == [] <==> IsBlank(s)
  {
    TrimEnd(TrimStart(s))
  }

  /** The guard `if (input.trim())` of both `handleSend` handlers: the
      trimmed draft is a non-empty, hence truthy, string exactly when the
      draft holds a non-whitespace character. */
  method TrimmedIsTruthy(input: string) returns (truthy: bool)
    ensures truthy <==> !IsBlank(input)
  {
    truthy := Trim(input) != [];
  }
}
