/** Reading guidance and skills of a remote workspace (packages/context/src/remote.ts), with the tool of the Runner that
    answers it (packages/runner/src/workspace.ts): both ends bound the answer, the Runner without its envelope. */
module ContextReads {
  import opened Bindings
  import opened ExecutorContract
  import opened Json
  import opened Sizes
  import C = Coordinator

  datatype Reason = BindingReason | Unavailable | Forbidden | Malformed

  datatype ReaderError = ReaderError(reason: Reason, message: string)

  /** What the workspace's own reader gives: the text of a response, or an error. */
  datatype Answer = Response(text: string) | Error(error: ReaderError)

  function ReasonText(reason: Reason): string {
    match reason
    case BindingReason => "binding"
    case Unavailable => "unavailable"
    case Forbidden => "forbidden"
    case Malformed => "malformed"
  }

  function ErrorText(error: ReaderError): string {
    Object([Member("_tag", Quote("RikaContextWorkspaceReaderError")), Member("reason", Quote(ReasonText(error.reason))),
            Member("message", Quote(error.message))])
  }

  // ----- the Runner -----

  const RESPONSE_TOO_LONG := ReaderError(Forbidden, "Workspace context response exceeds the byte limit")

  /** `encodeResponse` */
  function EncodeResponse(answer: Answer): Answer {
    if answer.Response? && Bytes(answer.text) > MAX_RECEIPT_BYTES then Error(RESPONSE_TOO_LONG) else answer
  }

  /** The branch of `dispatch` for the workspace context tool. */
  function ToolEvidence(intent: Intent, answer: Answer): ExecutorEvidence {
    match EncodeResponse(answer)
    case Response(text) => EvidenceFor(intent, Completed(text))
    case Error(error) => EvidenceFor(intent, DomainFailure(ErrorText(error)))
  }

  // ----- the Session -----

  datatype Reading = Got(text: string) | Refused(reason: Reason)

  /** `dispatchRequest` from the exchange on; `decode` is the decoder of reader errors. */
  function Read(intent: Intent, dispatched: Result<ExecutorEvidence>, decode: string -> Reason): Reading {
    match dispatched
    case Err(_) => Refused(Unavailable)
    case Ok(evidence) =>
      if EvidenceBytes(evidence) > MAX_RECEIPT_BYTES then Refused(Forbidden)
      else match ValidateEvidence(intent, evidence)
        case Err(_) => Refused(BindingReason)
        case Ok(verified) => Outcomes(verified.outcome, decode)
  }

  /** `decodeResponse` and `decodeFailure` */
  function Outcomes(outcome: Outcome, decode: string -> Reason): Reading {
    match outcome
    case Completed(result) => if Bytes(result) > MAX_RECEIPT_BYTES then Refused(Forbidden) else Got(result)
    case DomainFailure(failure) =>
      if Bytes(failure) > MAX_RECEIPT_BYTES then Refused(Unavailable) else Refused(decode(failure))
    case _ => Refused(Unavailable)
  }

  /** The schema decodes what it has encoded. */
  ghost predicate Decodes(decode: string -> Reason) {
    forall error :: decode(ErrorText(error)) == error.reason
  }

  lemma ErrorBytes(error: ReaderError)
    requires |error.message| <= 100
    ensures Bytes(ErrorText(error)) <= 6000
  {
    hide Bytes, Quote, Object, MemberBytes;
    ShortQuote("RikaContextWorkspaceReaderError");
    ShortQuote(ReasonText(error.reason));
    ShortQuote(error.message);
    var members := [Member("_tag", Quote("RikaContextWorkspaceReaderError")),
                    Member("reason", Quote(ReasonText(error.reason))), Member("message", Quote(error.message))];
    ObjectBytes(members);
    MemberBytesAtMost(members, 700);
  }

  lemma ShortQuote(text: string)
    requires |text| <= 100
    ensures Bytes(Quote(text)) <= 602
  {
    hide Bytes, Escaped;
    QuoteBytes(text);
  }

  /** The reader gets the answer, exactly: a response comes through if and only if it fits the receipt bound together
      with its envelope, and is otherwise forbidden, whichever end finds out; an error comes through as it is. */
  lemma {:induction false} ContextReadExactly(intent: Intent, answer: Answer, decode: string -> Reason)
    requires IntentSchema(intent) && Decodes(decode)
    requires answer.Error? ==> |answer.error.message| <= 100
    ensures var read := Read(intent, Ok(ToolEvidence(intent, answer)), decode);
            match answer
            case Response(text) =>
              read == if Overhead(EvidenceFor(intent, Accepted)) + Bytes(text) <= MAX_RECEIPT_BYTES then Got(text)
                      else Refused(Forbidden)
            case Error(error) => read == Refused(error.reason)
  {
    hide Bytes, Quote, EvidenceBytes, ErrorText, IntentSchema, Overhead, FailureOverhead;
    var e := EvidenceFor(intent, Accepted);
    OverheadBounds(intent, e);
    ErrorBytes(RESPONSE_TOO_LONG);
    PayloadBytes(e, ErrorText(RESPONSE_TOO_LONG));
    match answer
    case Response(text) =>
      PayloadBytes(e, text);
      ValidEvidenceIsMadeForTheIntent(intent, EvidenceFor(intent, Completed(text)));
      ValidEvidenceIsMadeForTheIntent(intent, EvidenceFor(intent, DomainFailure(ErrorText(RESPONSE_TOO_LONG))));
    case Error(error) =>
      ErrorBytes(error);
      PayloadBytes(e, ErrorText(error));
      ValidEvidenceIsMadeForTheIntent(intent, EvidenceFor(intent, DomainFailure(ErrorText(error))));
  }

  // ----- an answer between the two bounds -----

  function Lines(n: nat): string { seq(n, _ => '\n') }

  /** The response for an `AGENTS.md` of that content. */
  function Guidance(content: string): string {
    Object([Member("_tag", Quote("Guidance")),
            Member("files", "[" + Object([Member("path", Quote("AGENTS.md")), Member("content", Quote(content))])
                   + "]")])
  }

  /** Printed characters that need no escape. */
  predicate Plain(text: string) {
    forall i :: 0 <= i < |text| ==> 32 <= text[i] as int < 0x80 && text[i] != '"' && text[i] != '\\'
  }

  lemma {:induction false} PlainIsUnescaped(text: string)
    requires Plain(text)
    ensures Escaped(text) == text
  {
    if text == "" {
    } else {
      PlainIsUnescaped(text[1..]);
      assert Escape(text[0]) == [text[0]];
    }
  }

  lemma PlainBytes(text: string)
    requires Plain(text)
    ensures Bytes(Quote(text)) == 2 + |text|
  {
    hide Bytes, Escaped;
    QuoteBytes(text);
    PlainIsUnescaped(text);
    AsciiBytes(text);
  }

  /** Every line end takes two bytes in JSON. */
  lemma {:induction false} LinesBytes(n: nat)
    ensures Bytes(Escaped(Lines(n))) == 2 * n
  {
    if n == 0 {
      EmptyBytes();
    } else {
      LinesBytes(n - 1);
      assert Lines(n)[1..] == Lines(n - 1);
      AsciiBytes("\\n");
      BytesAppend("\\n", Escaped(Lines(n - 1)));
      hide Bytes;
    }
  }

  lemma GuidanceBytes(content: string)
    ensures Bytes(Guidance(content)) == 63 + Bytes(Escaped(content))
  {
    hide Bytes, Quote, Object, Escaped, Plain;
    Keys();
    QuoteBytes(content);
    var file := Object([Member("path", Quote("AGENTS.md")), Member("content", Quote(content))]);
    TwoMembers("path", Quote("AGENTS.md"), "content", Quote(content));
    Bracketed(file);
    TwoMembers("_tag", Quote("Guidance"), "files", "[" + file + "]");
  }

  lemma Bracketed(text: string)
    ensures Bytes("[" + text + "]") == 2 + Bytes(text)
  {
    AsciiBytes("[");
    AsciiBytes("]");
    hide Bytes;
    BytesAppend("[" + text, "]");
    BytesAppend("[", text);
  }

  lemma Keys()
    ensures Bytes(Quote("_tag")) == 6 && Bytes(Quote("Guidance")) == 10 && Bytes(Quote("files")) == 7
    ensures Bytes(Quote("path")) == 6 && Bytes(Quote("AGENTS.md")) == 11 && Bytes(Quote("content")) == 9
  {
    hide Bytes, Quote;
    PlainBytes("_tag");
    PlainBytes("Guidance");
    PlainBytes("files");
    PlainBytes("path");
    PlainBytes("AGENTS.md");
    PlainBytes("content");
  }

  /** Whatever fits the receipt bound alone and not with its envelope: the Runner answers with it as a completed result;
      the Session refuses it as forbidden, and a coordinator given this evidence would report the kind `transport`. */
  lemma {:induction false} BetweenTheBounds(intent: Intent, text: string, decode: string -> Reason)
    requires IntentSchema(intent) && Decodes(decode)
    requires Bytes(text) <= MAX_RECEIPT_BYTES < Overhead(EvidenceFor(intent, Accepted)) + Bytes(text)
    ensures var evidence := ToolEvidence(intent, Response(text));
            && evidence == EvidenceFor(intent, Completed(text)) && ValidateEvidence(intent, evidence) == Ok(evidence)
            && Read(intent, Ok(evidence), decode) == Refused(Forbidden)
            && C.AfterDispatchReply(intent, Ok(evidence)) == C.Fail(C.TransportKind, C.EvidenceTooLarge)
  {
    hide Bytes, Quote, EvidenceBytes, Overhead, FailureOverhead, IntentSchema, ErrorText;
    PayloadBytes(EvidenceFor(intent, Accepted), text);
    ContextReadExactly(intent, Response(text), decode);
    ValidEvidenceIsMadeForTheIntent(intent, EvidenceFor(intent, Completed(text)));
  }

  /** Such responses exist for every intent: an `AGENTS.md` of these many line ends, within the 64 KiB that the
      reader in the workspace allows. */
  lemma {:induction false} CompletedLooksLikeTransport(intent: Intent, n: nat, decode: string -> Reason)
    requires IntentSchema(intent) && Decodes(decode) && 65497 <= n <= 65504
    ensures Bytes(Lines(n)) <= 65536
    ensures var evidence := ToolEvidence(intent, Response(Guidance(Lines(n))));
            && evidence.outcome.Completed? && ValidateEvidence(intent, evidence) == Ok(evidence)
            && Read(intent, Ok(evidence), decode) == Refused(Forbidden)
            && C.AfterDispatchReply(intent, Ok(evidence)) == C.Fail(C.TransportKind, C.EvidenceTooLarge)
  {
    hide Bytes, Overhead, Escaped, Guidance, Object, EvidenceBytes, Read, C.Accept, IntentSchema, ToolEvidence;
    AsciiBytes(Lines(n));
    hide Lines;
    LinesBytes(n);
    GuidanceBytes(Lines(n));
    OverheadBounds(intent, EvidenceFor(intent, Accepted));
    BetweenTheBounds(intent, Guidance(Lines(n)), decode);
  }

  // ----- the two ends agree -----

  /** The Runner answers with a response if and only if it is within the receipt bound by itself. */
  lemma ResponsesAreBounded(intent: Intent, text: string)
    ensures var outcome := ToolEvidence(intent, Response(text)).outcome;
            if Bytes(text) <= 131072 then outcome == Completed(text)
            else outcome == DomainFailure(ErrorText(RESPONSE_TOO_LONG))
  {
    hide Bytes, ErrorText;
  }

  /** The text of an object of three members up to the second value. */
  function Before(first: Member, key: string): string {
    "{" + Quote(first.key) + ":" + first.text + "," + Quote(key) + ":"
  }

  lemma SecondMember(first: Member, second: Member, third: Member)
    ensures Object([first, second, third]) == Before(first, second.key) + (second.text + ("," + Body([third]) + "}"))
  {
    hide Quote;
    assert [first, second, third][1..] == [second, third] && [second, third][1..] == [third];
    assert Body([second, third]) == Quote(second.key) + ":" + second.text + "," + Body([third]);
    assert Body([first, second, third]) == Quote(first.key) + ":" + first.text + "," + Body([second, third]);
    hide Body;
  }

  lemma QuotedLetter(word: string, rest: string)
    requires Plain(word) && word != ""
    ensures |Quote(word) + rest| > 1 && (Quote(word) + rest)[1] == word[0]
  {
    PlainIsUnescaped(word);
    hide Escaped, Plain;
  }

  lemma SameSecond(before: string, left: string, right: string)
    requires before + left == before + right
    ensures left == right
  {
    assert (before + left)[|before|..] == left && (before + right)[|before|..] == right;
  }

  lemma ReasonIsPlain(reason: Reason)
    ensures Plain(ReasonText(reason)) && ReasonText(reason) != ""
  {
  }

  lemma LettersDiffer(reason: Reason, other: Reason)
    ensures ReasonText(reason) != "" && ReasonText(other) != ""
    ensures ReasonText(reason)[0] == ReasonText(other)[0] ==> reason == other
  {
  }

  /** Errors with one text have one reason. */
  lemma ReasonIsWritten(error: ReaderError, other: ReaderError)
    requires ErrorText(error) == ErrorText(other)
    ensures error.reason == other.reason
  {
    var tag := Member("_tag", Quote("RikaContextWorkspaceReaderError"));
    var word, otherWord := ReasonText(error.reason), ReasonText(other.reason);
    var message, otherMessage := Member("message", Quote(error.message)), Member("message", Quote(other.message));
    assert ErrorText(error) == Object([tag, Member("reason", Quote(word)), message])
      by { hide Quote, Object, ReasonText; }
    assert ErrorText(other) == Object([tag, Member("reason", Quote(otherWord)), otherMessage])
      by { hide Quote, Object, ReasonText; }
    hide *;
    var tail, otherTail := "," + Body([message]) + "}", "," + Body([otherMessage]) + "}";
    SecondMember(tag, Member("reason", Quote(word)), message);
    SecondMember(tag, Member("reason", Quote(otherWord)), otherMessage);
    SameSecond(Before(tag, "reason"), Quote(word) + tail, Quote(otherWord) + otherTail);
    ReasonIsPlain(error.reason);
    ReasonIsPlain(other.reason);
    QuotedLetter(word, tail);
    QuotedLetter(otherWord, otherTail);
    LettersDiffer(error.reason, other.reason);
  }

  ghost function ReasonOf(text: string): (r: Reason)
    ensures (exists error :: ErrorText(error) == text) ==> exists error :: ErrorText(error) == text && r == error.reason
  {
    if exists error :: ErrorText(error) == text then (var error :| ErrorText(error) == text; error.reason)
    else Malformed
  }

  lemma ReadsReason(error: ReaderError)
    ensures ReasonOf(ErrorText(error)) == error.reason
  {
    hide ErrorText, ReasonOf;
    var other :| ErrorText(other) == ErrorText(error) && ReasonOf(ErrorText(error)) == other.reason;
    ReasonIsWritten(error, other);
  }

  /** So a decoder of errors exists: what is asked of one can be had. */
  lemma ErrorsCanBeDecoded() returns (decode: string -> Reason)
    ensures Decodes(decode)
  {
    decode := (text: string) => ReasonOf(text);
    hide ErrorText, ReasonOf;
    forall error ensures decode(ErrorText(error)) == error.reason { ReadsReason(error); }
  }
}
