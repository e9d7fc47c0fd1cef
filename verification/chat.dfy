/** The chat message payload builder: consent and identity checks, a text
    check, angle-bracket stripping, truncation to a code-point budget with an
    ellipsis, and assembly of the outgoing payload. A string is a sequence
    of code points, one `char` each, so a string's length is its code-point
    length. */
module Chat {
  import opened Wrappers

  /** The code-point budget of a message's text. */
  const MaxTextLength := 4000

  /** The character appended to truncated text. */
  const Ellipsis: char := '\U{2026}'

  /** The characters a JavaScript `trim` removes: the white space characters
      and the line terminators of ECMAScript. */
  predicate IsJsWhitespace(c: char) {
    || c == '\t' || c == '\n' || c == '\U{000B}' || c == '\U{000C}' || c == '\r' || c == ' '
    || c == '\U{00A0}' || c == '\U{1680}' || ('\U{2000}' <= c <= '\U{200A}')
    || c == '\U{2028}' || c == '\U{2029}' || c == '\U{202F}' || c == '\U{205F}'
    || c == '\U{3000}' || c == '\U{FEFF}'
  }

  /** Every character is white space (so the empty string is blank too). */
  predicate IsBlank(s: string) {
    forall i :: 0 <= i < |s| ==> IsJsWhitespace(s[i])
  }

  predicate IsAngle(c: char) {
    c == '<' || c == '>'
  }

  /** `codePointLength`: with one `char` per code point, the number of
      characters. Only the empty text has length zero. */
  function CodePointLength(text: string): (n: nat)
    ensures n == 0 <==> text == []
  {
    |text|
  }

  /** Code-point length adds up over concatenation. */
  lemma CodePointLengthConcat(a: string, b: string)
    ensures CodePointLength(a + b) == CodePointLength(a) + CodePointLength(b)
  {
  }

  /** Blank strings stay blank when joined. */
  lemma BlankConcat(a: string, b: string)
    requires IsBlank(a) && IsBlank(b)
    ensures IsBlank(a + b)
  {
  }

  /** `trimStart`: the string without its leading white space. */
  function TrimStart(s: string): (r: string)
    decreases |s|
    ensures |r| <= |s| && r == s[|s| - |r|..] && IsBlank(s[..|s| - |r|])
    ensures r == [] || !IsJsWhitespace(r[0])
  {
    if s != [] && IsJsWhitespace(s[0]) then
      var r := TrimStart(s[1..]);
      assert s[1..][|s| - 1 - |r|..] == s[|s| - |r|..];
      assert s[..|s| - |r|] == [s[0]] + s[1..][..|s| - 1 - |r|];
      BlankConcat([s[0]], s[1..][..|s| - 1 - |r|]);
      r
    else
      assert s[..0] == [];
      s
  }

  /** `trimEnd`: the string without its trailing white space. */
  function TrimEnd(s: string): (r: string)
    decreases |s|
    ensures |r| <= |s| && r == s[..|r|] && IsBlank(s[|r|..])
    ensures r == [] || !IsJsWhitespace(r[|r| - 1])
  {
    if s != [] && IsJsWhitespace(s[|s| - 1]) then
      var init := s[..|s| - 1];
      var r := TrimEnd(init);
      assert init[..|r|] == s[..|r|];
      assert s[|r|..] == init[|r|..] + [s[|s| - 1]];
      BlankConcat(init[|r|..], [s[|s| - 1]]);
      r
    else
      assert s[|s|..] == [];
      s
  }

  /** `trim`: the middle of the string, with white space on both sides cut
      away, so that the result neither starts nor ends with white space. */
  function Trim(s: string): (r: string)
    ensures exists i, j :: 0 <= i <= j <= |s| && r == s[i..j] && IsBlank(s[..i]) && IsBlank(s[j..])
    ensures r == [] || (!IsJsWhitespace(r[0]) && !IsJsWhitespace(r[|r| - 1]))
  {
    TrimIsMiddle(s);
    TrimEnd(TrimStart(s))
  }

  /** Trimming both ends leaves a middle slice with blank margins. */
  lemma TrimIsMiddle(s: string)
    ensures var r := TrimEnd(TrimStart(s));
            exists i, j :: 0 <= i <= j <= |s| && r == s[i..j] && IsBlank(s[..i]) && IsBlank(s[j..])
    ensures var r := TrimEnd(TrimStart(s));
            r == [] || (!IsJsWhitespace(r[0]) && !IsJsWhitespace(r[|r| - 1]))
  {
    var t := TrimStart(s);
    var k := TrimStartCut(s);
    var r := TrimEnd(t);
    var j := TrimEndCut(t);
    SliceOfSuffix(s, k, j);
    assert IsBlank(s[k + j..]);
    assert 0 <= k <= k + j <= |s| && r == s[k..k + j] && IsBlank(s[..k]);
    assert r != [] ==> r[0] == t[0];
  }

  /** Where `trimStart` cuts. */
  lemma TrimStartCut(s: string) returns (k: nat)
    ensures k <= |s| && TrimStart(s) == s[k..] && IsBlank(s[..k])
  {
    k := |s| - |TrimStart(s)|;
  }

  /** Where `trimEnd` cuts. */
  lemma TrimEndCut(s: string) returns (k: nat)
    ensures k <= |s| && TrimEnd(s) == s[..k] && IsBlank(s[k..])
  {
    k := |TrimEnd(s)|;
  }

  /** Cutting a suffix at `j` is cutting the whole string at `k + j`. */
  lemma SliceOfSuffix(s: string, k: nat, j: nat)
    requires k + j <= |s|
    ensures s[k..][..j] == s[k..k + j] && s[k..][j..] == s[k + j..]
  {
  }

  /** Trimming leaves nothing exactly when every character is white space:
      the source's `!x.trim()` and `x.trim().length === 0` tests are
      blankness tests. */
  lemma {:induction false} TrimEmptyIffBlank(s: string)
    ensures Trim(s) == [] <==> IsBlank(s)
  {
    var t := TrimStart(s);
    var k := TrimStartCut(s);
    var j := TrimEndCut(t);
    if Trim(s) == [] {
      assert j == 0 && t[j..] == t;
      assert t == [];
      forall i | 0 <= i < |s|
        ensures IsJsWhitespace(s[i])
      {
        assert s[i] == s[..k][i];
      }
    } else {
      var c := Trim(s)[0];
      assert c == s[k];
      assert !IsJsWhitespace(c);
    }
  }

  /** `sanitizeText`: the text with every '<' and '>' removed. */
  function Sanitize(text: string): (r: string)
    decreases |text|
    ensures forall i :: 0 <= i < |r| ==> !IsAngle(r[i])
    ensures forall c :: !IsAngle(c) ==> multiset(r)[c] == multiset(text)[c]
    ensures |r| == |text| - multiset(text)['<'] - multiset(text)['>']
  {
    if text == [] then []
    else
      assert text == [text[0]] + text[1..];
      var rest := Sanitize(text[1..]);
      if IsAngle(text[0]) then rest else [text[0]] + rest
  }

  /** Stripping distributes over concatenation, so it keeps the remaining
      characters in their order. */
  lemma {:induction false} SanitizeConcat(a: string, b: string)
    decreases |a|
    ensures Sanitize(a + b) == Sanitize(a) + Sanitize(b)
  {
    if a == [] {
      assert a + b == b;
    } else {
      assert (a + b)[1..] == a[1..] + b;
      SanitizeConcat(a[1..], b);
    }
  }

  /** Text without angle brackets is left as it is. */
  lemma {:induction false} SanitizeKeepsClean(text: string)
    requires forall i :: 0 <= i < |text| ==> !IsAngle(text[i])
    decreases |text|
    ensures Sanitize(text) == text
  {
    if text != [] {
      SanitizeKeepsClean(text[1..]);
    }
  }

  /** Stripping twice is stripping once. */
  lemma SanitizeIdempotent(text: string)
    ensures Sanitize(Sanitize(text)) == Sanitize(text)
  {
    SanitizeKeepsClean(Sanitize(text));
  }

  /** `truncateWithEllipsis`: text within the budget is returned as it is;
      longer text keeps its first `maxLength - 1` code points followed by an
      ellipsis, degenerating to the bare ellipsis for a budget of one and to
      nothing for a budget of zero or less. */
  function TruncateWithEllipsis(text: string, maxLength: int): (r: string)
    ensures |text| <= maxLength ==> r == text
    ensures |text| > maxLength && maxLength <= 0 ==> r == []
    ensures |text| > maxLength && maxLength >= 1 ==>
              && |r| == maxLength
              && r[..maxLength - 1] == text[..maxLength - 1]
              && r[maxLength - 1] == Ellipsis
    ensures maxLength >= 0 ==> |r| <= maxLength
    ensures r == text || r == [] || r == text[..|r| - 1] + [Ellipsis]
  {
    if |text| <= maxLength then text
    else if maxLength <= 0 then []
    else if maxLength == 1 then [Ellipsis]
    else text[..maxLength - 1] + [Ellipsis]
  }

  /** Truncating to the same budget twice is truncating once. */
  lemma TruncateIdempotent(text: string, maxLength: int)
    ensures TruncateWithEllipsis(TruncateWithEllipsis(text, maxLength), maxLength)
            == TruncateWithEllipsis(text, maxLength)
  {
  }

  /** Truncation never introduces an angle bracket. */
  lemma TruncateKeepsClean(text: string, maxLength: int)
    requires forall i :: 0 <= i < |text| ==> !IsAngle(text[i])
    ensures var r := TruncateWithEllipsis(text, maxLength);
            forall i :: 0 <= i < |r| ==> !IsAngle(r[i])
  {
    var r := TruncateWithEllipsis(text, maxLength);
    if r != text && r != [] {
      forall i | 0 <= i < |r|
        ensures !IsAngle(r[i])
      {
        if i < |r| - 1 {
          assert r[i] == text[i];
        }
      }
    }
  }

  /** The sender's state: the conversation and user, when known, the locale
      and whether the user has consented. */
  datatype ChatState = ChatState(
    conversationId: Option<string>,
    userId: Option<string>,
    locale: string,
    consentGiven: bool
  )

  /** The reasons a payload is refused. */
  datatype ChatError = ConsentRequired | MissingConversationId | MissingUserId | EmptyMessage

  /** The outgoing message. `channel` is always "web"; `retryOf` is the
      optional field of the source, absent unless set. */
  datatype MessagePayload = MessagePayload(
    messageId: string,
    conversationId: string,
    userId: string,
    locale: string,
    text: string,
    length: int,
    createdAt: string,
    channel: string,
    retryOf: Option<string>
  )

  /** A missing identifier in the sense of `!id || !id.trim()`. */
  predicate Missing(id: Option<string>) {
    id.None? || Trim(id.value) == []
  }

  lemma MissingIffBlank(id: Option<string>)
    ensures Missing(id) <==> id.None? || IsBlank(id.value)
  {
    if id.Some? {
      TrimEmptyIffBlank(id.value);
    }
  }

  /** `buildMessagePayload`, with the generated message id and the creation
      timestamp passed in. The checks run in order: consent, conversation
      id, user id, then the raw text, which is refused when empty or white
      space only. */
  function BuildMessagePayload(rawText: string, state: ChatState, retryOf: Option<string>,
                               messageId: string, createdAt: string): (r: Result<MessagePayload, ChatError>)
    ensures !state.consentGiven ==> r == Err(ConsentRequired)
    ensures state.consentGiven && (state.conversationId.None? || IsBlank(state.conversationId.value)) ==>
              r == Err(MissingConversationId)
    ensures state.consentGiven && state.conversationId.Some? && !IsBlank(state.conversationId.value)
            && (state.userId.None? || IsBlank(state.userId.value)) ==>
              r == Err(MissingUserId)
    ensures r == Err(EmptyMessage) <==>
              && state.consentGiven
              && state.conversationId.Some? && !IsBlank(state.conversationId.value)
              && state.userId.Some? && !IsBlank(state.userId.value)
              && IsBlank(rawText)
    ensures r.Ok? <==>
              && state.consentGiven
              && state.conversationId.Some? && !IsBlank(state.conversationId.value)
              && state.userId.Some? && !IsBlank(state.userId.value)
              && !IsBlank(rawText)
    ensures r.Ok? ==>
              && (forall i :: 0 <= i < |r.value.text| ==> !IsAngle(r.value.text[i]))
              && r.value.length == |r.value.text| <= MaxTextLength
              && r.value.conversationId == state.conversationId.value
              && r.value.userId == state.userId.value
              && r.value.locale == state.locale
              && r.value.channel == "web"
              && r.value.messageId == messageId
              && r.value.createdAt == createdAt
              && (r.value.retryOf.Some? <==> retryOf.Some? && retryOf.value != [])
              && (r.value.retryOf.Some? ==> r.value.retryOf == retryOf)
    ensures r.Ok? && |Sanitize(rawText)| <= MaxTextLength ==> r.value.text == Sanitize(rawText)
    ensures r.Ok? && |Sanitize(rawText)| > MaxTextLength ==>
              && |r.value.text| == MaxTextLength
              && r.value.text[MaxTextLength - 1] == Ellipsis
              && r.value.text[..MaxTextLength - 1] == Sanitize(rawText)[..MaxTextLength - 1]
  {
    TrimEmptyIffBlank(rawText);
    MissingIffBlank(state.conversationId);
    MissingIffBlank(state.userId);
    if !state.consentGiven then Err(ConsentRequired)
    else if Missing(state.conversationId) then Err(MissingConversationId)
    else if Missing(state.userId) then Err(MissingUserId)
    else if rawText == [] || |Trim(rawText)| == 0 then Err(EmptyMessage)
    else
      var sanitized := Sanitize(rawText);
      var truncated := TruncateWithEllipsis(sanitized, MaxTextLength);
      TruncateKeepsClean(sanitized, MaxTextLength);
      Ok(MessagePayload(
        messageId := messageId,
        conversationId := state.conversationId.value,
        userId := state.userId.value,
        locale := state.locale,
        text := truncated,
        length := CodePointLength(truncated),
        createdAt := createdAt,
        channel := "web",
        retryOf := if retryOf.Some? && retryOf.value != [] then retryOf else None))
  }

  /** The text check looks at the raw text, before stripping: a message made
      only of angle brackets is accepted and sent with empty text. */
  lemma AnglesOnlyMessageIsSentEmpty(state: ChatState, messageId: string, createdAt: string)
    requires state.consentGiven
    requires state.conversationId.Some? && !IsBlank(state.conversationId.value)
    requires state.userId.Some? && !IsBlank(state.userId.value)
    ensures var r := BuildMessagePayload("<>", state, None, messageId, createdAt);
            r.Ok? && r.value.text == [] && r.value.length == 0
  {
    assert !IsJsWhitespace("<>"[0]);
  }
}
