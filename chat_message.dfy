/**
 * The text the playground shows for a chat message (`getMessageContent`,
 * written out identically in `UserMessage` and `AssistantMessage`): a string
 * message as it is, a content array as the space-joined texts of its text
 * parts, any other truthy content as it is, and otherwise the message's
 * `text` or the empty string. The assistant bubble renders only a truthy
 * result.
 */
module ChatMessage {
  import opened Wrappers
  import opened Strings

  /** One element of a content array; a missing `text` joins as the empty string. */
  datatype Part = Part(kind: string, text: Option<string>)

  /**
   * `message.content`: falsy (missing, null, false, 0), an array of parts, a
   * string (falsy when empty), or any other object.
   */
  datatype Content = NoContent | Parts(parts: seq<Part>) | StringContent(s: string) | ObjectContent

  /** The message: a plain string, an object with `content` and `text`, or null / undefined. */
  datatype Message = TextMessage(s: string) | RecordMessage(content: Content, text: Option<string>) | Nullish

  /** What is shown: a string, or the non-string content object handed on as it is. */
  datatype Shown = ShownText(s: string) | ShownContent

  predicate ContentTruthy(c: Content) {
    c.Parts? || c.ObjectContent? || (c.StringContent? && Truthy(c.s))
  }

  /** `.filter(c => c.type === "text").map(c => c.text)`, with a missing text as "". */
  function TextParts(parts: seq<Part>): (r: seq<string>)
    ensures |r| <= |parts|
    ensures |r| == 0 <==> forall i :: 0 <= i < |parts| ==> parts[i].kind != "text"
  {
    if parts == [] then []
    else
      var rest := TextParts(parts[1..]);
      assert forall i :: 1 <= i < |parts| ==> parts[i] == parts[1..][i - 1];
      (if parts[0].kind == "text" then [parts[0].text.GetOr("")] else []) + rest
  }

  /** One part gives its text (or "") exactly when it is a text part. */
  lemma TextPartsOne(p: Part)
    ensures TextParts([p]) == if p.kind == "text" then [p.text.GetOr("")] else []
  {
    assert [p][1..] == [];
  }

  /** The texts come out in the parts' order: `TextParts` distributes over concatenation. */
  lemma {:induction false} TextPartsAppend(a: seq<Part>, b: seq<Part>)
    ensures TextParts(a + b) == TextParts(a) + TextParts(b)
  {
    if a == [] {
      assert a + b == b;
    } else {
      var head := if a[0].kind == "text" then [a[0].text.GetOr("")] else [];
      assert (a + b)[0] == a[0];
      assert (a + b)[1..] == a[1..] + b;
      assert TextParts(a + b) == head + TextParts(a[1..] + b);
      TextPartsAppend(a[1..], b);
      assert TextParts(a) == head + TextParts(a[1..]);
    }
  }

  /** `getMessageContent()`. */
  function MessageContent(m: Message): (r: Shown)
    ensures m.TextMessage? ==> r == ShownText(m.s)
    ensures m.Nullish? ==> r == ShownText("")
    ensures m.RecordMessage? && !ContentTruthy(m.content) ==>
              r == ShownText(if TruthyOpt(m.text) then m.text.value else "")
    ensures m.RecordMessage? && m.content.StringContent? && Truthy(m.content.s) ==> r == ShownText(m.content.s)
    ensures m.RecordMessage? && m.content.Parts? ==> r == ShownText(Join(TextParts(m.content.parts), " "))
    ensures r.ShownContent? <==> m.RecordMessage? && m.content.ObjectContent?
  {
    match m
    case TextMessage(s) => ShownText(s)
    case Nullish => ShownText("")
    case RecordMessage(content, text) =>
      if !ContentTruthy(content) then ShownText(if TruthyOpt(text) then text.value else "")
      else match content
        case Parts(parts) => ShownText(Join(TextParts(parts), " "))
        case StringContent(s) => ShownText(s)
        case ObjectContent => ShownContent
  }

  /** A join with a non-empty separator is empty only for no parts or one empty part. */
  lemma {:induction false} JoinEmptyIff(parts: seq<string>, sep: string)
    requires sep != ""
    ensures Join(parts, sep) == "" <==> |parts| == 0 || (|parts| == 1 && parts[0] == "")
  {
    if |parts| > 1 {
      assert |Join(parts, sep)| >= |sep|;
    }
  }

  /** The sum of the lengths of `parts`. */
  function TotalLength(parts: seq<string>): nat {
    if parts == [] then 0 else |parts[0]| + TotalLength(parts[1..])
  }

  /** A join is as long as its parts plus one separator between each two. */
  lemma {:induction false} JoinLength(parts: seq<string>, sep: string)
    requires |parts| > 0
    ensures |Join(parts, sep)| == TotalLength(parts) + (|parts| - 1) * |sep|
  {
    if |parts| > 1 {
      JoinLength(parts[1..], sep);
    }
  }

  /** The assistant bubble's body is rendered when the content is truthy. */
  predicate AssistantRendersBody(m: Message) {
    var r := MessageContent(m);
    r.ShownContent? || Truthy(r.s)
  }

  /**
   * The assistant renders a body exactly for a non-empty string message, an
   * object or non-empty string content, a content array whose text parts
   * join to something (two or more, or one non-empty), or a falsy content
   * with a non-empty `text`.
   */
  lemma AssistantRendersIff(m: Message)
    ensures AssistantRendersBody(m) <==>
              (m.TextMessage? && m.s != "") ||
              (m.RecordMessage? && m.content.ObjectContent?) ||
              (m.RecordMessage? && m.content.StringContent? && m.content.s != "") ||
              (m.RecordMessage? && m.content.Parts? &&
                 (|TextParts(m.content.parts)| >= 2 || (|TextParts(m.content.parts)| == 1 && TextParts(m.content.parts)[0] != ""))) ||
              (m.RecordMessage? && !ContentTruthy(m.content) && TruthyOpt(m.text))
  {
    if m.RecordMessage? && m.content.Parts? {
      JoinEmptyIff(TextParts(m.content.parts), " ");
    }
  }

  /** A content array without text parts shows nothing, even when a `text` is present. */
  lemma NoTextPartsShowNothing(parts: seq<Part>, text: Option<string>)
    requires forall i :: 0 <= i < |parts| ==> parts[i].kind != "text"
    ensures MessageContent(RecordMessage(Parts(parts), text)) == ShownText("")
    ensures !AssistantRendersBody(RecordMessage(Parts(parts), text))
  {
  }

  /** The shown text of a content array is its text parts' lengths plus one space between each two. */
  lemma PartsTextLength(parts: seq<Part>, text: Option<string>)
    requires |TextParts(parts)| > 0
    ensures MessageContent(RecordMessage(Parts(parts), text)).ShownText?
    ensures |MessageContent(RecordMessage(Parts(parts), text)).s| == TotalLength(TextParts(parts)) + |TextParts(parts)| - 1
  {
    JoinLength(TextParts(parts), " ");
  }
}
