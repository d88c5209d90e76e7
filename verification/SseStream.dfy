/** The text of the event stream: revisions in decimal, frames, and the client's line parser
    (section 9.2.6 of the WHATWG HTML standard), on streams whose lines end with a line feed. */
module SseStream {
  import opened InvalidationLog
  import opened LineSplitting
  import opened Wrappers

  predicate IsDigit(c: char) {
    '0' <= c <= '9'
  }

  function DigitValue(c: char): nat
    requires IsDigit(c)
  {
    c as int - '0' as int
  }

  function NumberOf(s: string): nat
    requires AllDigits(s)
  {
    if s == [] then 0 else 10 * NumberOf(s[..|s| - 1]) + DigitValue(s[|s| - 1])
  }

  /** `0`, or up to sixteen digits without a leading zero. */
  predicate WellFormedRevision(s: string) {
    && 1 <= |s| <= 16
    && AllDigits(s)
    && (s[0] == '0' ==> |s| == 1)
  }

  function ParseRevision(value: Option<string>): Option<nat> {
    if value.None? || !WellFormedRevision(value.value) then None
    else if NumberOf(value.value) <= MAX_SAFE then Some(NumberOf(value.value)) else None
  }

  function Power10(k: nat): nat {
    if k == 0 then 1 else 10 * Power10(k - 1)
  }

  predicate AllDigits(s: string) {
    forall i | 0 <= i < |s| :: IsDigit(s[i])
  }

  lemma DigitReads(d: nat)
    requires d < 10
    ensures IsDigit(Digit(d)) && DigitValue(Digit(d)) == d && (Digit(d) == '0' ==> d == 0)
  {
  }

  lemma {:induction false} DecimalReads(n: nat, k: nat)
    requires k >= 1 && n < Power10(k)
    ensures |Decimal(n)| <= k && AllDigits(Decimal(n)) && NumberOf(Decimal(n)) == n
    ensures Decimal(n)[0] == '0' ==> n == 0
  {
    DigitReads(n % 10);
    if n < 10 {
      assert Decimal(n)[..0] == "";
    } else {
      assert Power10(1) == 10 && Power10(k) == 10 * Power10(k - 1);
      DecimalReads(n / 10, k - 1);
      assert Decimal(n)[..|Decimal(n)| - 1] == Decimal(n / 10);
    }
  }

  lemma TenTimes(q: nat, d: nat)
    requires d < 10
    ensures (10 * q + d) / 10 == q && (10 * q + d) % 10 == d
  {
  }

  lemma {:induction false} ReadingIsUnique(s: string)
    requires |s| >= 1 && AllDigits(s) && (s[0] == '0' ==> |s| == 1)
    ensures Decimal(NumberOf(s)) == s
    ensures s[0] != '0' ==> NumberOf(s) >= 1
  {
    var front, last := s[..|s| - 1], s[|s| - 1];
    DigitOf(last);
    TenTimes(NumberOf(front), DigitValue(last));
    assert s == front + [last];
    if |s| > 1 {
      ReadingIsUnique(front);
    }
  }

  lemma DigitOf(c: char)
    requires IsDigit(c)
    ensures DigitValue(c) < 10 && Digit(DigitValue(c)) == c && (c != '0' ==> DigitValue(c) >= 1)
  {
  }

  /** Revisions survive the trip through the header: exactly the safe integers, each from exactly one text. */
  lemma RevisionRoundTrip(n: nat, s: string)
    ensures ParseRevision(Some(Decimal(n))) == if n <= MAX_SAFE then Some(n) else None
    ensures ParseRevision(Some(s)) == Some(n) ==> s == Decimal(n)
  {
    if ParseRevision(Some(s)) == Some(n) {
      ReadingIsUnique(s);
    }
    SixteenDigits();
    if n <= MAX_SAFE {
      DecimalReads(n, 16);
    } else {
      var k := n + 1;
      PowerExceeds(n);
      DecimalReads(n, k);
    }
  }

  lemma SixteenDigits()
    ensures Power10(16) == 10_000_000_000_000_000
  {
    assert Power10(4) == 10_000;
    assert Power10(8) == 10_000 * Power10(4);
    assert Power10(12) == 10_000 * Power10(8);
  }

  lemma {:induction false} PowerExceeds(n: nat)
    ensures n < Power10(n + 1)
  {
    if n > 0 {
      PowerExceeds(n - 1);
    }
  }

  /** What the gateway makes of a `Last-Event-ID` header. */
  datatype Header = NoHeader | Revision(revision: nat) | Malformed

  function ReadHeader(value: Option<string>): Header {
    var parsed := ParseRevision(value);
    if value.None? then NoHeader else if parsed.Some? then Revision(parsed.value) else Malformed
  }

  /** What is written to a stream: an event, or a block with no fields that matter (the retry time, a
      heartbeat comment). */
  datatype Item = EventItem(event: Event) | Block(line: string)

  predicate ValidItem(i: Item) {
    i.Block? ==> Harmless(i.line)
  }

  /** A comment line or a retry line. */
  predicate Harmless(line: string) {
    '\n' !in line && (":" <= line || "retry: " <= line)
  }

  function ItemLines(i: Item): seq<string> {
    match i
    case EventItem(e) => FrameLines(e)
    case Block(line) => [line, ""]
  }

  function Encode(i: Item): string {
    Join(ItemLines(i), "", '\n')
  }

  function EncodeAll(items: seq<Item>): string {
    if items == [] then "" else EncodeAll(items[..|items| - 1]) + Encode(items[|items| - 1])
  }

  datatype Message = Message(kind: string, data: string, lastEventId: string)

  /** The parser of one connection. `lastEventId` belongs to the event source and outlives it. */
  datatype Parser = Parser(data: string, kind: string, idBuffer: string, lastEventId: string, messages: seq<Message>)

  function Colon(line: string): (c: nat)
    ensures c <= |line| && ':' !in line[..c] && (c < |line| ==> line[c] == ':')
  {
    if line == [] || line[0] == ':' then 0
    else
      var c := Colon(line[1..]);
      assert line[..c + 1] == [line[0]] + line[1..][..c];
      c + 1
  }

  function FieldName(line: string): string {
    line[..Colon(line)]
  }

  /** What follows the colon, without one leading space. */
  function FieldValue(line: string): string {
    var c := Colon(line);
    if c + 1 >= |line| then ""
    else if line[c + 1] == ' ' then line[c + 2..] else line[c + 1..]
  }

  function Dispatch(p: Parser): Parser {
    var seen := p.(lastEventId := p.idBuffer, data := "", kind := "");
    if p.data == "" then seen
    else
      var data := if p.data[|p.data| - 1] == '\n' then p.data[..|p.data| - 1] else p.data;
      seen.(messages := p.messages + [Message(if p.kind == "" then "message" else p.kind, data, p.idBuffer)])
  }

  function ProcessLine(p: Parser, line: string): Parser {
    if line == "" then Dispatch(p)
    else if line[0] == ':' then p
    else
      var name, value := FieldName(line), FieldValue(line);
      if name == "event" then p.(kind := value)
      else if name == "data" then p.(data := p.data + value + ['\n'])
      else if name == "id" && '\0' !in value then p.(idBuffer := value)
      else p
  }

  function ProcessLines(p: Parser, lines: seq<string>): Parser {
    if lines == [] then p else ProcessLine(ProcessLines(p, lines[..|lines| - 1]), lines[|lines| - 1])
  }

  /** Parse what has arrived; an unfinished last line waits. */
  function Parse(p: Parser, stream: string): Parser {
    ProcessLines(p, Lines(stream, '\n'))
  }

  function MessageOf(e: Event): Message {
    Message(KindName(e.kind), e.json, Decimal(e.revision))
  }

  /** Between two items the buffers are empty. */
  function Receive(p: Parser, i: Item): Parser {
    match i
    case EventItem(e) => p.(idBuffer := Decimal(e.revision), lastEventId := Decimal(e.revision),
                            messages := p.messages + [MessageOf(e)])
    case Block(_) => p.(lastEventId := p.idBuffer)
  }

  function ReceiveAll(p: Parser, items: seq<Item>): Parser {
    if items == [] then p else Receive(ReceiveAll(p, items[..|items| - 1]), items[|items| - 1])
  }

  lemma {:induction false} ProcessAppend(p: Parser, a: seq<string>, b: seq<string>)
    ensures ProcessLines(p, a + b) == ProcessLines(ProcessLines(p, a), b)
  {
    if b == [] {
      assert a + b == a;
    } else {
      var front := b[..|b| - 1];
      assert (a + b)[..|a + b| - 1] == a + front;
      ProcessAppend(p, a, front);
    }
  }

  lemma ColonAfter(name: string, rest: string)
    requires ':' !in name
    ensures FieldName(name + ": " + rest) == name && FieldValue(name + ": " + rest) == rest
  {
    var line := name + ": " + rest;
    var c := Colon(line);
    assert line[|name|] == ':' && forall j | 0 <= j < |name| :: line[j] == name[j];
    forall j | 0 <= j < c ensures line[j] != ':' { assert line[..c][j] == line[j]; }
    assert line[..c] == name;
    assert line[c + 2..] == rest;
  }

  lemma DecimalHasOnlyDigits(n: nat)
    ensures '\n' !in Decimal(n) && '\0' !in Decimal(n)
  {
    PowerExceeds(n);
    DecimalReads(n, n + 1);
    var s := Decimal(n);
    forall i | 0 <= i < |s| ensures s[i] != '\n' && s[i] != '\0' { assert IsDigit(s[i]); }
  }

  lemma KindNameIsPlain(k: Kind)
    ensures KindName(k) != "" && '\n' !in KindName(k)
  {
  }

  /** The lines of an item are its own, and only the last of them is empty. */
  lemma ItemIsItsLines(i: Item)
    requires ValidItem(i)
    ensures Lines(Encode(i), '\n') == ItemLines(i) && Tail(Encode(i), '\n') == ""
    ensures forall k | 0 <= k < |ItemLines(i)| :: ItemLines(i)[k] == "" <==> k == |ItemLines(i)| - 1
  {
    if i.EventItem? {
      DecimalHasOnlyDigits(i.event.revision);
      KindNameIsPlain(i.event.kind);
    }
    forall line | line in ItemLines(i) ensures '\n' !in line {
      var k :| 0 <= k < |ItemLines(i)| && ItemLines(i)[k] == line;
    }
    JoinThenSplit(ItemLines(i), "", '\n');
  }

  lemma IdLine(p: Parser, value: string)
    requires '\0' !in value
    ensures ProcessLine(p, "id: " + value) == p.(idBuffer := value)
  {
    ColonAfter("id", value);
    assert "id: " + value == "id" + ": " + value;
  }

  lemma EventLine(p: Parser, value: string)
    ensures ProcessLine(p, "event: " + value) == p.(kind := value)
  {
    ColonAfter("event", value);
    assert "event: " + value == "event" + ": " + value;
  }

  lemma DataLine(p: Parser, value: string)
    ensures ProcessLine(p, "data: " + value) == p.(data := p.data + value + ['\n'])
  {
    ColonAfter("data", value);
    assert "data: " + value == "data" + ": " + value;
  }

  /** A whole item is received as the one thing it is. */
  lemma WholeItem(p: Parser, i: Item)
    requires ValidItem(i) && p.data == "" && p.kind == ""
    ensures ProcessLines(p, ItemLines(i)) == Receive(p, i)
  {
    match i
    case EventItem(e) => WholeEvent(p, e);
    case Block(line) =>
      BlockLine(p, line);
      TwoLines(p, line, "");
  }

  lemma WholeEvent(p: Parser, e: Event)
    requires p.data == "" && p.kind == ""
    ensures ProcessLines(p, FrameLines(e)) == Receive(p, EventItem(e))
  {
    var id, kind := Decimal(e.revision), KindName(e.kind);
    DecimalHasOnlyDigits(e.revision);
    KindNameIsPlain(e.kind);
    IdLine(p, id);
    EventLine(p.(idBuffer := id), kind);
    DataLine(p.(idBuffer := id, kind := kind), e.json);
    assert "" + e.json + ['\n'] == e.json + ['\n'];
    assert (e.json + ['\n'])[..|e.json|] == e.json;
    FourLines(p, "id: " + id, "event: " + kind, "data: " + e.json, "");
  }

  lemma BlockLine(p: Parser, line: string)
    requires Harmless(line)
    ensures ProcessLine(p, line) == p
  {
    if line[0] != ':' {
      assert line == "retry" + ": " + line[7..];
      ColonAfter("retry", line[7..]);
    }
  }

  lemma TwoLines(p: Parser, a: string, b: string)
    ensures ProcessLines(p, [a, b]) == ProcessLine(ProcessLine(p, a), b)
  {
    assert [a, b][..1] == [a];
    assert [a][..0] == [];
    assert ProcessLines(p, [a]) == ProcessLine(ProcessLines(p, []), a);
  }

  lemma FourLines(p: Parser, a: string, b: string, c: string, d: string)
    ensures ProcessLines(p, [a, b, c, d]) == ProcessLine(ProcessLine(ProcessLine(ProcessLine(p, a), b), c), d)
  {
    assert [a, b, c, d] == [a, b] + [c, d];
    ProcessAppend(p, [a, b], [c, d]);
    TwoLines(p, a, b);
    TwoLines(ProcessLines(p, [a, b]), c, d);
  }

  /** Without a blank line nothing is dispatched and the last event id stays. */
  lemma {:induction false} NothingDispatched(p: Parser, lines: seq<string>)
    requires forall k | 0 <= k < |lines| :: lines[k] != ""
    ensures ProcessLines(p, lines).messages == p.messages && ProcessLines(p, lines).lastEventId == p.lastEventId
  {
    if lines != [] {
      NothingDispatched(p, lines[..|lines| - 1]);
    }
  }

  lemma {:induction false} WholeStream(p: Parser, items: seq<Item>)
    requires p.data == "" && p.kind == "" && forall i | 0 <= i < |items| :: ValidItem(items[i])
    ensures Parse(p, EncodeAll(items)) == ReceiveAll(p, items) && Tail(EncodeAll(items), '\n') == ""
    ensures ReceiveAll(p, items).data == "" && ReceiveAll(p, items).kind == ""
  {
    if items != [] {
      var front, last := items[..|items| - 1], items[|items| - 1];
      WholeStream(p, front);
      ItemIsItsLines(last);
      AppendStream(EncodeAll(front), Encode(last), '\n');
      ProcessAppend(p, Lines(EncodeAll(front), '\n'), ItemLines(last));
      WholeItem(ReceiveAll(p, front), last);
    }
  }

  /** How many items are whole within the first `n` characters. */
  function WholeItems(items: seq<Item>, n: nat): (k: nat)
    ensures k <= |items|
  {
    if items == [] || |EncodeAll(items)| <= n then |items| else WholeItems(items[..|items| - 1], n)
  }

  /** Wherever the stream is cut, the client has received exactly the items that are whole, in order,
      and its last event id is theirs; nothing of the item that was cut counts. */
  lemma {:induction false} CutStream(p: Parser, items: seq<Item>, n: nat)
    requires p.data == "" && p.kind == "" && forall i | 0 <= i < |items| :: ValidItem(items[i])
    requires n <= |EncodeAll(items)|
    ensures var cut, whole := Parse(p, EncodeAll(items)[..n]), ReceiveAll(p, items[..WholeItems(items, n)]);
            cut.messages == whole.messages && cut.lastEventId == whole.lastEventId
  {
    var all := EncodeAll(items);
    if n == |all| {
      WholeStream(p, items);
      assert all[..n] == all && items[..|items|] == items;
    } else {
      var front, last := items[..|items| - 1], items[|items| - 1];
      var before := EncodeAll(front);
      if n < |before| {
        CutStream(p, front, n);
        assert all[..n] == before[..n];
        assert items[..WholeItems(items, n)] == front[..WholeItems(front, n)];
      } else {
        CutItem(p, front, last, n - |before|);
        assert all[..n] == before + Encode(last)[..n - |before|];
        assert WholeItems(items, n) == |front| by { assert front == [] || |EncodeAll(front)| <= n; }
        assert items[..|front|] == front;
      }
    }
  }

  lemma CutItem(p: Parser, front: seq<Item>, last: Item, m: nat)
    requires p.data == "" && p.kind == "" && ValidItem(last) && forall i | 0 <= i < |front| :: ValidItem(front[i])
    requires m < |Encode(last)|
    ensures var cut, whole := Parse(p, EncodeAll(front) + Encode(last)[..m]), ReceiveAll(p, front);
            cut.messages == whole.messages && cut.lastEventId == whole.lastEventId
  {
    var part := Encode(last)[..m];
    WholeStream(p, front);
    ItemIsItsLines(last);
    AppendStream(EncodeAll(front), part, '\n');
    ProcessAppend(p, Lines(EncodeAll(front), '\n'), Lines(part, '\n'));
    CutText(ReceiveAll(p, front), Encode(last), m);
  }

  lemma CutText(p: Parser, text: string, m: nat)
    requires m < |text| && Tail(text, '\n') == ""
    requires var lines := Lines(text, '\n'); forall k | 0 <= k < |lines| :: lines[k] == "" <==> k == |lines| - 1
    ensures var cut := ProcessLines(p, Lines(text[..m], '\n'));
            cut.messages == p.messages && cut.lastEventId == p.lastEventId
  {
    EndsWithMark(text);
    CutLines(text, m, '\n');
    NothingDispatched(p, Lines(text[..m], '\n'));
  }

  lemma EndsWithMark(s: string)
    requires s != "" && Tail(s, '\n') == ""
    ensures s[|s| - 1] == '\n'
  {
  }
}
