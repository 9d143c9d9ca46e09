/** The chat message store, the mock streaming route that answers with one
    server-sent event per word, and the client loop that reads those events
    back into the bot's message. */
module Chat {
  import opened Wrappers
  import opened Seqs
  import opened Strings
  import opened Format

  // ----------------------------------------------------------------- store

  datatype ChatMessage = ChatMessage(
    id: string,
    message: string,
    timestamp: string,
    isUser: Option<bool>,
    conversationId: Option<string>)

  /** `addMessage`: the message goes at the end; the others stay as they were. */
  function AddMessage(ms: seq<ChatMessage>, m: ChatMessage): (r: seq<ChatMessage>)
    ensures |r| == |ms| + 1 && r[..|ms|] == ms && r[|ms|] == m
  {
    ms + [m]
  }

  /** The user's message, stamped with the clock reading `now` and the
      formatted time `timestamp`. */
  function UserMessage(text: string, now: nat, timestamp: string): ChatMessage {
    ChatMessage("user_" + NatToString(now), text, timestamp, Some(true), None)
  }

  /** The empty bot message the stream is read into. */
  function StreamPlaceholder(now: nat, timestamp: string): ChatMessage {
    ChatMessage("bot_" + NatToString(now), "", timestamp, Some(false), None)
  }

  /** The two appends of `sendStreamingMessage` before and after the request
      is sent: the user's message, then the empty bot message. The clock is
      read for each: `sent` and `sentAt` before the request, `answered` and
      `answeredAt` after it. */
  function StartStream(ms: seq<ChatMessage>, text: string, sent: nat, answered: nat, sentAt: string, answeredAt: string): (r: seq<ChatMessage>)
    ensures |r| == |ms| + 2 && r[..|ms|] == ms
    ensures r[|ms|].isUser == Some(true) && r[|ms|].message == text
    ensures r[|ms|].id == "user_" + NatToString(sent) && r[|ms|].timestamp == sentAt
    ensures r[|ms| + 1].isUser == Some(false) && r[|ms| + 1].message == ""
    ensures r[|ms| + 1].id == "bot_" + NatToString(answered) && r[|ms| + 1].timestamp == answeredAt
  {
    AddMessage(AddMessage(ms, UserMessage(text, sent, sentAt)), StreamPlaceholder(answered, answeredAt))
  }

  /** `messages.slice(0, -1)`: all but the last, nothing for an empty list. */
  function DropLast<T>(xs: seq<T>): (r: seq<T>)
    ensures |xs| > 0 ==> r == xs[..|xs| - 1]
    ensures |xs| == 0 ==> r == []
  {
    if |xs| == 0 then [] else xs[..|xs| - 1]
  }

  /** The progress update as written: it rebuilds the list from `stale`, the
      messages as they were when the hook last rendered, before the two
      appends. */
  function ShowProgressAsWritten(stale: seq<ChatMessage>, placeholder: ChatMessage, content: string): (r: seq<ChatMessage>)
    ensures |r| == |DropLast(stale)| + 1 && r[..|r| - 1] == DropLast(stale)
  {
    DropLast(stale) + [placeholder.(message := Trim(content))]
  }

  /** The progress update meant: the last message of the current list, the
      bot placeholder, takes the text read so far. */
  function ShowProgress(current: seq<ChatMessage>, placeholder: ChatMessage, content: string): (r: seq<ChatMessage>)
    ensures |current| > 0 ==> |r| == |current| && r[..|r| - 1] == current[..|current| - 1]
    ensures |r| >= 1 && r[|r| - 1] == placeholder.(message := Trim(content))
  {
    DropLast(current) + [placeholder.(message := Trim(content))]
  }

  /** Once the stream starts, the corrected update keeps every earlier
      message and the user's message, and replaces only the placeholder. */
  lemma ShowProgressKeepsConversation(ms: seq<ChatMessage>, text: string, sent: nat, answered: nat, sentAt: string, answeredAt: string, content: string)
    ensures var current := StartStream(ms, text, sent, answered, sentAt, answeredAt);
            var r := ShowProgress(current, StreamPlaceholder(answered, answeredAt), content);
            && |r| == |ms| + 2 && r[..|ms|] == ms && r[|ms|] == UserMessage(text, sent, sentAt)
            && r[|ms| + 1].message == Trim(content) && r[|ms| + 1].id == StreamPlaceholder(answered, answeredAt).id
  {
    var current := StartStream(ms, text, sent, answered, sentAt, answeredAt);
    assert current[..|ms| + 1] == ms + [UserMessage(text, sent, sentAt)];
  }

  /** As written, the first word read already loses the user's message and
      the message before it: one earlier message and a send leave a single
      message, the bot's. */
  lemma ShowProgressLosesMessages(m: ChatMessage, text: string, sent: nat, answered: nat, sentAt: string, answeredAt: string, content: string)
    requires m.isUser != Some(false)
    ensures var stale := [m];
            var current := StartStream(stale, text, sent, answered, sentAt, answeredAt);
            var r := ShowProgressAsWritten(stale, StreamPlaceholder(answered, answeredAt), content);
            && |current| == 3 && |r| == 1
            && UserMessage(text, sent, sentAt) in current && UserMessage(text, sent, sentAt) !in r
            && m in current && m !in r
  {
    var r := ShowProgressAsWritten([m], StreamPlaceholder(answered, answeredAt), content);
    assert r == [StreamPlaceholder(answered, answeredAt).(message := Trim(content))];
    assert StartStream([m], text, sent, answered, sentAt, answeredAt)[1] == UserMessage(text, sent, sentAt);
  }

  // ---------------------------------------------------------------- encode

  function HexDigit(d: nat): (c: char)
    requires d < 16
    ensures c != '\n'
  {
    if d < 10 then DigitChar(d) else ('a' as int + d - 10) as char
  }

  /** `JSON.stringify` of one character inside a string literal. */
  function Escape(c: char): (r: string)
    ensures '\n' !in r && |r| >= 1
  {
    if c == '"' then "\\\""
    else if c == '\\' then "\\\\"
    else if c == '\n' then "\\n"
    else if c == '\r' then "\\r"
    else if c == '\t' then "\\t"
    else if c == '\U{8}' then "\\b"
    else if c == '\U{C}' then "\\f"
    else if c < ' ' then "\\u00" + [HexDigit(c as int / 16), HexDigit(c as int % 16)]
    else [c]
  }

  function EscapeAll(s: string): (r: string)
    ensures '\n' !in r
  {
    if |s| == 0 then "" else Escape(s[0]) + EscapeAll(s[1..])
  }

  /** `JSON.stringify({ word: w })`. A newline in `w` is escaped, so the
      payload stays on one line. */
  function EncodeWord(w: string): (r: string)
    ensures '\n' !in r && |r| > 0 && r[0] == '{'
  {
    "{\"word\":\"" + EscapeAll(w) + "\"}"
  }

  const DataPrefix: string := "data: "
  const DonePayload: string := "[DONE]"

  /** One event: `data: <payload>` and a blank line. */
  function Frame(w: string): string {
    DataPrefix + EncodeWord(w) + "\n\n"
  }

  const DoneFrame: string := DataPrefix + DonePayload + "\n\n"

  /** The mock answer, `Here's a streaming response to: "<message>".`, in
      three pieces: its first word, the rest of the lead-in, and the close. */
  const AnswerHead: string := "Here's"
  const AnswerLead: string := "a streaming response to: \""
  const AnswerClose: string := "\"."

  /** The words of the mock answer: its pieces between single spaces, which
      joined back with spaces give the answer. */
  function Words(message: string): (ws: seq<string>)
    ensures |ws| >= 1
    ensures forall i :: 0 <= i < |ws| ==> ' ' !in ws[i]
    ensures Join(ws, " ") == AnswerHead + " " + AnswerLead + message + AnswerClose
  {
    var answer := AnswerHead + " " + AnswerLead + message + AnswerClose;
    JoinSplit(answer, ' ');
    Split(answer, ' ')
  }

  /** The frames of the route: one per word, in order, then the end marker. */
  function Frames(ws: seq<string>): (fs: seq<string>)
    ensures |fs| == |ws| + 1 && fs[|ws|] == DoneFrame
    ensures forall i :: 0 <= i < |ws| ==> fs[i] == Frame(ws[i])
  {
    if |ws| == 0 then [DoneFrame] else [Frame(ws[0])] + Frames(ws[1..])
  }

  datatype PostResult = BadRequest(status: nat, body: string) | EventStream(frames: seq<string>)

  /** The streaming route's `POST`: a missing or empty message is a 400;
      any other message is answered word by word. Only string messages are
      modelled. */
  function Post(message: Option<string>): (r: PostResult)
    ensures r.BadRequest? <==> message.None? || message.value == ""
    ensures r.BadRequest? ==> r.status == 400 && r.body == "Message is required"
  {
    if message.None? || message.value == "" then BadRequest(400, "Message is required")
    else EventStream(Frames(Words(message.value)))
  }

  // ---------------------------------------------------------------- decode

  /** What the client has read: the accepted words, and whether the end
      marker was seen. */
  datatype Scan = Scan(words: seq<string>, done: bool)

  predicate IsDataLine(line: string) {
    StartsWith(line, DataPrefix)
  }

  /** `w` is the word `wordOf` reads from some payload. */
  ghost predicate Yields(wordOf: string -> Option<string>, w: string) {
    exists p :: wordOf(p) == Some(w)
  }

  /** The line loop over one chunk. Lines not starting with `data: ` are
      skipped; the payload `[DONE]` ends the whole read; any other payload
      contributes the truthy `word` that `wordOf` reads from it, and is
      skipped when it does not parse or has none. */
  function ReadLines(lines: seq<string>, wordOf: string -> Option<string>): (s: Scan)
    ensures |s.words| <= |lines|
    ensures forall i :: 0 <= i < |s.words| ==> Yields(wordOf, s.words[i])
  {
    if |lines| == 0 then Scan([], false)
    else if !IsDataLine(lines[0]) then ReadLines(lines[1..], wordOf)
    else
      var data := lines[0][|DataPrefix|..];
      if data == DonePayload then Scan([], true)
      else
        var rest := ReadLines(lines[1..], wordOf);
        match wordOf(data)
        case Some(w) => Scan([w] + rest.words, rest.done)
        case None => rest
  }

  /** Lines that are not data lines change nothing. */
  lemma {:induction false} OnlyDataLines(lines: seq<string>, wordOf: string -> Option<string>)
    ensures ReadLines(lines, wordOf) == ReadLines(Filter(lines, IsDataLine), wordOf)
  {
    if |lines| > 0 {
      OnlyDataLines(lines[1..], wordOf);
      if IsDataLine(lines[0]) {
        assert Filter(lines, IsDataLine)[1..] == Filter(lines[1..], IsDataLine);
      }
    }
  }

  /** The reader loop: chunk by chunk, each split into lines, until the end
      marker or the end of the stream. Chunks are taken to hold whole lines. */
  function ReadChunks(chunks: seq<string>, wordOf: string -> Option<string>): (ws: seq<string>)
    ensures |chunks| == 0 ==> ws == []
    ensures forall i :: 0 <= i < |ws| ==> Yields(wordOf, ws[i])
  {
    if |chunks| == 0 then []
    else
      var s := ReadLines(Split(chunks[0], '\n'), wordOf);
      if s.done then s.words else s.words + ReadChunks(chunks[1..], wordOf)
  }

  /** Nothing after the end marker is read. */
  lemma {:induction false} DoneStopsReading(pre: seq<string>, more: seq<string>, wordOf: string -> Option<string>)
    ensures ReadChunks(pre + [DoneFrame] + more, wordOf) == ReadChunks(pre + [DoneFrame], wordOf)
  {
    if |pre| == 0 {
      DoneFrameLines();
      assert ([DoneFrame] + more)[0] == DoneFrame;
    } else {
      DoneStopsReading(pre[1..], more, wordOf);
      assert (pre + [DoneFrame] + more)[1..] == pre[1..] + [DoneFrame] + more;
      assert (pre + [DoneFrame])[1..] == pre[1..] + [DoneFrame];
    }
  }

  /** `streamedContent`: each accepted word followed by a space. */
  function Content(ws: seq<string>): (c: string)
    ensures |ws| == 0 <==> c == ""
    ensures |ws| > 0 ==> c[|c| - 1] == ' '
  {
    if |ws| == 0 then "" else ws[0] + " " + Content(ws[1..])
  }

  lemma {:induction false} ContentIsJoin(ws: seq<string>)
    requires |ws| > 0
    ensures Content(ws) == Join(ws, " ") + " "
  {
    if |ws| > 1 {
      ContentIsJoin(ws[1..]);
    }
  }

  /** The text the bot message shows: the content read, trimmed. */
  function Shown(chunks: seq<string>, wordOf: string -> Option<string>): (r: string)
    ensures |r| == 0 || (!IsWhitespace(r[0]) && !IsWhitespace(r[|r| - 1]))
  {
    Trim(Content(ReadChunks(chunks, wordOf)))
  }

  // ------------------------------------------------------------ round trip

  /** `JSON.parse` reads back what `JSON.stringify` wrote; the empty word is
      falsy and is not taken. */
  ghost predicate ReadsBack(wordOf: string -> Option<string>) {
    forall w :: wordOf(EncodeWord(w)) == if w == "" then None else Some(w)
  }

  predicate NonEmpty(w: string) {
    w != ""
  }

  lemma {:induction false} SplitNewlines()
    ensures Split("\n", '\n') == ["", ""]
  {
    SplitAtSeparator("", "", '\n');
    assert "" + ['\n'] + "" == "\n";
  }

  lemma {:induction false} FrameLines(w: string)
    ensures Split(Frame(w), '\n') == [DataPrefix + EncodeWord(w), "", ""]
  {
    var line := DataPrefix + EncodeWord(w);
    assert Frame(w) == line + ['\n'] + "\n";
    SplitAtSeparator(line, "\n", '\n');
    SplitWithoutSeparator(line, '\n');
    SplitNewlines();
  }

  lemma {:induction false} DoneFrameLines()
    ensures Split(DoneFrame, '\n') == [DataPrefix + DonePayload, "", ""]
  {
    var line := DataPrefix + DonePayload;
    assert DoneFrame == line + ['\n'] + "\n";
    SplitAtSeparator(line, "\n", '\n');
    SplitWithoutSeparator(line, '\n');
    SplitNewlines();
  }

  /** One word's frame yields that word, unless it is empty. */
  lemma {:induction false} ReadFrame(w: string, wordOf: string -> Option<string>)
    requires ReadsBack(wordOf)
    ensures ReadLines(Split(Frame(w), '\n'), wordOf) == Scan(if w == "" then [] else [w], false)
  {
    FrameLines(w);
    var lines := [DataPrefix + EncodeWord(w), "", ""];
    assert lines[0][|DataPrefix|..] == EncodeWord(w);
    assert IsDataLine(lines[0]);
    assert EncodeWord(w) != DonePayload by {
      assert EncodeWord(w)[0] == '{' && DonePayload[0] == '[';
    }
    assert !IsDataLine("");
    assert lines[1..] == ["", ""] && lines[1..][1..] == [""];
    assert ReadLines([""], wordOf) == Scan([], false);
    assert ReadLines(["", ""], wordOf) == Scan([], false);
    assert wordOf(EncodeWord(w)) == if w == "" then None else Some(w);
  }

  /** The frames of the route read back as the non-empty words, in order. */
  lemma {:induction false} FramesReadBack(ws: seq<string>, wordOf: string -> Option<string>)
    requires ReadsBack(wordOf)
    ensures ReadChunks(Frames(ws), wordOf) == Filter(ws, NonEmpty)
  {
    if |ws| == 0 {
      DoneFrameLines();
      assert !IsDataLine("");
    } else {
      ReadFrame(ws[0], wordOf);
      FramesReadBack(ws[1..], wordOf);
      assert Frames(ws)[1..] == Frames(ws[1..]);
    }
  }

  /** The first mock word is `Here's`; the last ends with a full stop. */
  lemma {:induction false} WordsEnds(message: string)
    ensures var ws := Words(message);
            ws[0] == AnswerHead && |ws[|ws| - 1]| > 0 && ws[|ws| - 1][|ws[|ws| - 1]| - 1] == '.'
  {
    var tail := AnswerLead + message;
    var x := AnswerHead + [' '] + tail;
    assert AnswerHead + " " + AnswerLead + message + AnswerClose == x + AnswerClose;
    SplitAppendTail(x, AnswerClose, ' ');
    SplitAtSeparator(AnswerHead, tail, ' ');
    SplitWithoutSeparator(AnswerHead, ' ');
  }

  /** Filtering keeps the first and last elements when they pass. */
  lemma {:induction false} FilterEnds<T(!new)>(xs: seq<T>, p: T -> bool)
    requires |xs| > 0 && p(xs[0]) && p(xs[|xs| - 1])
    ensures var r := Filter(xs, p); |r| > 0 && r[0] == xs[0] && r[|r| - 1] == xs[|xs| - 1]
  {
    var n := |xs| - 1;
    assert xs == xs[..n] + [xs[n]];
    FilterAppend(xs[..n], [xs[n]], p);
    assert Filter([xs[n]], p) == [xs[n]];
  }

  /** Padded with a space per word and trimmed, words that begin and end
      visibly come out joined by single spaces. */
  lemma ContentTrimmed(kept: seq<string>)
    requires |kept| > 0 && forall i :: 0 <= i < |kept| ==> |kept[i]| > 0
    requires !IsWhitespace(kept[0][0]) && !IsWhitespace(kept[|kept| - 1][|kept[|kept| - 1]| - 1])
    ensures Trim(Content(kept)) == Join(kept, " ")
  {
    JoinEnds(kept, " ");
    ContentIsJoin(kept);
    TrimPadded(Join(kept, " "));
  }

  /** Read back, frames of words that begin and end visibly show those
      words, empty ones dropped, joined by single spaces. */
  lemma ShowsJoinedWords(ws: seq<string>, wordOf: string -> Option<string>)
    requires ReadsBack(wordOf) && |ws| > 0
    requires |ws[0]| > 0 && !IsWhitespace(ws[0][0])
    requires |ws[|ws| - 1]| > 0 && !IsWhitespace(ws[|ws| - 1][|ws[|ws| - 1]| - 1])
    ensures Shown(Frames(ws), wordOf) == Join(Filter(ws, NonEmpty), " ")
  {
    var kept := Filter(ws, NonEmpty);
    FramesReadBack(ws, wordOf);
    FilterEnds(ws, NonEmpty);
    assert forall i :: 0 <= i < |kept| ==> NonEmpty(kept[i]);
    ContentTrimmed(kept);
  }

  /** The mock answer begins and ends with a visible character. */
  lemma WordsVisibleEnds(message: string)
    ensures var ws := Words(message);
            |ws[0]| > 0 && !IsWhitespace(ws[0][0])
            && |ws[|ws| - 1]| > 0 && !IsWhitespace(ws[|ws| - 1][|ws[|ws| - 1]| - 1])
  {
    WordsEnds(message);
    var ws := Words(message);
    assert ws[0][0] == 'H';
  }

  /** A non-empty message is answered with one frame per word of the mock
      answer, in order, and then the end marker. */
  lemma PostAnswers(message: string)
    requires message != ""
    ensures var r := Post(Some(message));
            && r.EventStream?
            && |r.frames| == |Words(message)| + 1
            && r.frames[|r.frames| - 1] == DoneFrame
            && forall i :: 0 <= i < |r.frames| - 1 ==> r.frames[i] == Frame(Words(message)[i])
  {
  }

  /** The round trip: a client reading the route's frames shows the non-empty
      words of the answer joined by single spaces. */
  lemma StreamRoundTrip(message: string, wordOf: string -> Option<string>)
    requires message != "" && ReadsBack(wordOf)
    ensures Post(Some(message)).EventStream?
    ensures ReadChunks(Post(Some(message)).frames, wordOf) == Filter(Words(message), NonEmpty)
    ensures Shown(Post(Some(message)).frames, wordOf) == Join(Filter(Words(message), NonEmpty), " ")
  {
    WordsVisibleEnds(message);
    FramesRoundTrip(Words(message), Post(Some(message)).frames, wordOf);
  }

  lemma FramesRoundTrip(ws: seq<string>, frames: seq<string>, wordOf: string -> Option<string>)
    requires ReadsBack(wordOf) && |ws| > 0 && frames == Frames(ws)
    requires |ws[0]| > 0 && !IsWhitespace(ws[0][0])
    requires |ws[|ws| - 1]| > 0 && !IsWhitespace(ws[|ws| - 1][|ws[|ws| - 1]| - 1])
    ensures ReadChunks(frames, wordOf) == Filter(ws, NonEmpty)
    ensures Shown(frames, wordOf) == Join(Filter(ws, NonEmpty), " ")
  {
    FramesReadBack(ws, wordOf);
    ShowsJoinedWords(ws, wordOf);
  }
}
