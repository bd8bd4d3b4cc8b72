/** The proxy that adds the engine's credentials to every request of the web UI
    (src/core/torrent_proxy.rs). Bytes are characters. */
module TorrentProxy {
  import opened Common

  const CRLF := "\r\n"
  const READ_SIZE := 4096
  const RELAY_SIZE := 64 * 1024
  const MAX_HEAD := 0x10_0000

  // ---- finding the end of the head --------------------------------------------------------

  /** A blank line ends at `e`: the four bytes before it are CR LF CR LF. */
  predicate EndsAt(buf: string, e: nat) {
    4 <= e <= |buf| && buf[e - 4] == '\r' && buf[e - 3] == '\n' && buf[e - 2] == '\r' && buf[e - 1] == '\n'
  }

  /** Just past the first blank line. */
  function FindHeadEnd(buf: string): (r: Option<nat>)
    ensures r.Some? ==> EndsAt(buf, r.value) && forall k :: 0 <= k < r.value ==> !EndsAt(buf, k)
    ensures r.None? ==> forall k :: 0 <= k <= |buf| ==> !EndsAt(buf, k)
  {
    FindFrom(buf, 0)
  }

  function FindFrom(buf: string, i: nat): (r: Option<nat>)
    requires forall k :: 0 <= k < i + 4 ==> !EndsAt(buf, k)
    ensures r.Some? ==> EndsAt(buf, r.value) && forall k :: 0 <= k < r.value ==> !EndsAt(buf, k)
    ensures r.None? ==> forall k :: 0 <= k <= |buf| ==> !EndsAt(buf, k)
    decreases |buf| - i
  {
    if |buf| < i + 4 then None
    else if EndsAt(buf, i + 4) then Some(i + 4)
    else FindFrom(buf, i + 1)
  }

  /** A longer text has the same first blank line, or its first one ends in the added part. */
  lemma FindInLonger(buf: string, more: string)
    ensures FindHeadEnd(buf).Some? ==> FindHeadEnd(buf + more) == FindHeadEnd(buf)
    ensures FindHeadEnd(buf).None? && FindHeadEnd(buf + more).Some? ==> FindHeadEnd(buf + more).value > |buf|
  {
    assert forall k: nat :: k <= |buf| ==> (EndsAt(buf, k) <==> EndsAt(buf + more, k));
  }

  // ---- reading the head -------------------------------------------------------------------

  function Flat(pieces: seq<string>): string {
    if pieces == [] then "" else pieces[0] + Flat(pieces[1..])
  }

  datatype Failure = Eof | TooLarge | Io
  datatype Head = Head(head: string, surplus: string)

  /** What a client sends, in the pieces the network delivers; then it closes, or the connection breaks. */
  class Client {
    var incoming: seq<string>
    const breaks: bool

    constructor (incoming: seq<string>, breaks: bool)
      ensures this.incoming == incoming && this.breaks == breaks
    {
      this.incoming, this.breaks := incoming, breaks;
    }

    ghost predicate Valid()
      reads this
    {
      forall i :: 0 <= i < |incoming| ==> incoming[i] != ""
    }

    /** At most `max` bytes; none at the end. */
    method Read(max: nat) returns (r: Result<string, Failure>)
      requires Valid() && max > 0
      modifies this
      ensures Valid()
      ensures r.Ok? ==> |r.value| <= max && r.value + Flat(incoming) == old(Flat(incoming))
      ensures r == Ok("") || r.Err? ==> old(incoming) == [] == incoming
      ensures r.Err? ==> breaks && r.error == Io
      ensures r == Ok("") ==> !breaks
    {
      if incoming == [] {
        return if breaks then Err(Io) else Ok("");
      }
      var piece := incoming[0];
      if |piece| <= max {
        incoming := incoming[1..];
        r := Ok(piece);
      } else {
        incoming := [piece[max..]] + incoming[1..];
        assert piece == piece[..max] + piece[max..];
        r := Ok(piece[..max]);
      }
    }
  }

  /** What reading the head of `sent` may come to: independent of how `sent` was cut into pieces, except
      for heads that end within one read past the limit. */
  ghost predicate HeadResult(sent: string, breaks: bool, r: Result<Head, Failure>) {
    var e := FindHeadEnd(sent);
    match r
    case Ok(h) => e == Some(|h.head|) && |h.head| <= MAX_HEAD + READ_SIZE && h.head + h.surplus <= sent
    case Err(TooLarge) => |sent| > MAX_HEAD && (e.Some? ==> e.value > MAX_HEAD + 1)
    case Err(Eof) => !breaks && e.None? && |sent| <= MAX_HEAD
    case Err(Io) => breaks && e.None? && |sent| <= MAX_HEAD
  }

  /** Wherever the first blank line of `sent` is, the outcome follows from the bytes alone, but for
      heads that end within one read past the limit. */
  lemma OutcomeByLength(sent: string, breaks: bool, r: Result<Head, Failure>)
    requires HeadResult(sent, breaks, r)
    ensures var e := FindHeadEnd(sent);
      && (e.Some? && e.value <= 1_048_577 ==> r == Ok(Head(sent[..e.value], r.value.surplus)))
      && (e.Some? && e.value > 1_048_576 + 4_096 ==> r == Err(TooLarge))
      && (e.None? ==> r == Err(if |sent| > 1_048_576 then TooLarge else if breaks then Io else Eof))
  {
    if r.Ok? {
      assert r.value.head == (r.value.head + r.value.surplus)[..|r.value.head|] == sent[..|r.value.head|];
    }
  }

  function Split(buf: string, end: nat): Head
    requires end <= |buf|
  {
    Head(buf[..end], buf[end..])
  }

  lemma SplitBefore(buf: string, end: nat, rest: string)
    requires end <= |buf|
    ensures Split(buf, end).head + (Split(buf, end).surplus + rest) == buf + rest
  {
  }

  lemma FoundHead(buf: string, rest: string, breaks: bool)
    requires FindHeadEnd(buf).Some? && |buf| <= MAX_HEAD + READ_SIZE
    ensures HeadResult(buf + rest, breaks, Ok(Split(buf, FindHeadEnd(buf).value)))
  {
    FindInLonger(buf, rest);
    var end := FindHeadEnd(buf).value;
    assert buf[..end] + buf[end..] == buf;
  }

  lemma NoHeadYet(buf: string, rest: string, breaks: bool)
    requires FindHeadEnd(buf).None? && |buf| > MAX_HEAD
    ensures HeadResult(buf + rest, breaks, Err(TooLarge))
  {
    FindInLonger(buf, rest);
  }

  method ReadHead(client: Client) returns (r: Result<Head, Failure>)
    requires client.Valid()
    modifies client
    ensures client.Valid()
    ensures HeadResult(old(Flat(client.incoming)), client.breaks, r)
    ensures r.Ok? ==> r.value.head + (r.value.surplus + Flat(client.incoming)) == old(Flat(client.incoming))
  {
    var buf := "";
    while true
      invariant client.Valid()
      invariant buf + Flat(client.incoming) == old(Flat(client.incoming))
      invariant FindHeadEnd(buf).None? && |buf| <= MAX_HEAD
      decreases |Flat(client.incoming)|
    {
      var chunk := client.Read(READ_SIZE);
      if chunk.Err? || chunk.value == "" {
        assert buf + "" == buf;
        return Err(if chunk.Err? then chunk.error else Eof);
      }
      assert (buf + chunk.value) + Flat(client.incoming) == buf + (chunk.value + Flat(client.incoming));
      buf := buf + chunk.value;
      var end := FindHeadEnd(buf);
      if end.Some? {
        FoundHead(buf, Flat(client.incoming), client.breaks);
        SplitBefore(buf, end.value, Flat(client.incoming));
        return Ok(Split(buf, end.value));
      }
      if |buf| > MAX_HEAD {
        NoHeadYet(buf, Flat(client.incoming), client.breaks);
        return Err(TooLarge);
      }
    }
  }

  // ---- rewriting the head -----------------------------------------------------------------

  predicate NoLf(s: string) { forall i :: 0 <= i < |s| ==> s[i] != '\n' }

  function FirstLf(s: string): (i: nat)
    ensures i <= |s| && NoLf(s[..i]) && (i < |s| ==> s[i] == '\n')
  {
    if s == "" || s[0] == '\n' then 0 else 1 + FirstLf(s[1..])
  }

  function StripCr(line: string): string {
    if line != "" && line[|line| - 1] == '\r' then line[..|line| - 1] else line
  }

  /** The lines of a text without their ends: LF or CRLF. */
  function Lines(text: string): seq<string>
    decreases |text|
  {
    if text == "" then []
    else
      var i := FirstLf(text);
      if i == |text| then [text] else [StripCr(text[..i])] + Lines(text[i + 1..])
  }

  function DropBlankEnd(lines: seq<string>): seq<string> {
    if lines != [] && lines[|lines| - 1] == "" then DropBlankEnd(lines[..|lines| - 1]) else lines
  }

  function Kept(head: string): seq<string> { DropBlankEnd(Lines(head)) }

  function Lower(c: char): char { if 'A' <= c <= 'Z' then c + 32 as char else c }

  predicate StartsWith(line: string, name: string) {
    |line| >= |name| && forall i :: 0 <= i < |name| ==> Lower(line[i]) == name[i]
  }

  predicate IsAuth(line: string) { StartsWith(line, "authorization") || StartsWith(line, "proxy-authorization") }
  predicate IsConnection(line: string) { StartsWith(line, "connection") }

  /** All lines but the request line. */
  function Fields(lines: seq<string>): seq<string> { if lines == [] then [] else lines[1..] }

  predicate HasAuth(fields: seq<string>) { exists i :: 0 <= i < |fields| && IsAuth(fields[i]) }

  function Closing(line: string): string { if IsConnection(line) then "Connection: close" else line }

  function AllClosing(lines: seq<string>): (r: seq<string>)
    ensures |r| == |lines| && forall i :: 0 <= i < |r| ==> r[i] == Closing(lines[i])
  {
    if lines == [] then [] else AllClosing(lines[..|lines| - 1]) + [Closing(lines[|lines| - 1])]
  }

  function Authorization(auth: string): string { "Authorization: " + auth }

  function Credentials(fields: seq<string>, auth: string): seq<string> {
    if HasAuth(fields) then [] else [Authorization(auth)]
  }

  function SentFields(fields: seq<string>, auth: string): seq<string> {
    Credentials(fields, auth) + AllClosing(fields)
  }

  function RequestLine(lines: seq<string>): seq<string> { if lines == [] then [] else [lines[0]] }

  /** The lines sent to the engine, without the blank one. */
  function Emitted(lines: seq<string>, auth: string): seq<string> {
    RequestLine(lines) + SentFields(Fields(lines), auth)
  }

  function Ended(line: string): string { line + CRLF }

  /** Lines with their ends. */
  function Join(lines: seq<string>): string {
    if lines == [] then "" else Ended(lines[0]) + Join(lines[1..])
  }

  function Rewritten(head: string, auth: string): string { Join(Emitted(Kept(head), auth)) + CRLF }

  lemma {:induction false} JoinPlus(a: seq<string>, b: seq<string>)
    ensures Join(a + b) == Join(a) + Join(b)
  {
    if a == [] {
      assert a + b == b;
    } else {
      JoinPlus(a[1..], b);
      assert (a + b)[1..] == a[1..] + b;
    }
  }

  lemma JoinPush(lines: seq<string>, line: string)
    ensures Join(lines + [line]) == Join(lines) + Ended(line)
  {
    JoinPlus(lines, [line]);
    assert Join([line][1..]) == "";
  }

  method FindsAuth(fields: seq<string>) returns (hasAuth: bool)
    ensures hasAuth == HasAuth(fields)
  {
    hasAuth := false;
    for i := 0 to |fields|
      invariant hasAuth == exists k :: 0 <= k < i && IsAuth(fields[k])
    {
      if IsAuth(fields[i]) {
        hasAuth := true;
      }
    }
  }

  method PushFields(fields: seq<string>, start: string, ghost sent: seq<string>) returns (out: string)
    requires start == Join(sent)
    ensures out == Join(sent + AllClosing(fields))
  {
    out := start;
    assert sent + AllClosing(fields[..0]) == sent;
    for i := 0 to |fields|
      invariant out == Join(sent + AllClosing(fields[..i]))
    {
      assert fields[..i + 1][..i] == fields[..i];
      assert sent + AllClosing(fields[..i + 1]) == (sent + AllClosing(fields[..i])) + [Closing(fields[i])];
      JoinPush(sent + AllClosing(fields[..i]), Closing(fields[i]));
      var line := fields[i];
      if IsConnection(line) {
        line := "Connection: close";
      }
      out := out + Ended(line);
    }
    assert fields[..|fields|] == fields;
  }

  lemma EmittedParts(lines: seq<string>, auth: string)
    ensures RequestLine(lines) + Credentials(Fields(lines), auth) + AllClosing(Fields(lines)) == Emitted(lines, auth)
  {
  }

  method RewriteHead(head: string, auth: string) returns (out: string)
    ensures out == Rewritten(head, auth)
  {
    var lines := Lines(head);
    while lines != [] && lines[|lines| - 1] == ""
      invariant DropBlankEnd(lines) == Kept(head)
      decreases |lines|
    {
      lines := lines[..|lines| - 1];
    }
    var hasAuth := FindsAuth(Fields(lines));
    out := "";
    ghost var sent := RequestLine(lines);
    if lines != [] {
      JoinPush([], lines[0]);
      assert [] + [lines[0]] == sent;
      out := out + Ended(lines[0]);
    }
    if !hasAuth {
      JoinPush(sent, Authorization(auth));
      out := out + Ended(Authorization(auth));
    }
    assert out == Join(sent + Credentials(Fields(lines), auth)) by {
      assert sent + [] == sent;
    }
    out := PushFields(Fields(lines), out, sent + Credentials(Fields(lines), auth));
    EmittedParts(lines, auth);
    out := out + CRLF;
  }

  // ---- one connection ---------------------------------------------------------------------

  class Engine {
    var received: string

    constructor ()
      ensures received == ""
    {
      received := "";
    }

    method WriteAll(bytes: string)
      modifies this
      ensures received == old(received) + bytes
    {
      received := received + bytes;
    }
  }

  /** The client-to-engine direction: the rewritten head, what was read past it, then all the rest.
      `body` is all the client sent behind its head. */
  method HandleConnection(client: Client, engine: Engine, auth: string)
    returns (r: Result<Head, Failure>, ghost body: string)
    requires client.Valid() && engine.received == ""
    modifies client, engine
    ensures HeadResult(old(Flat(client.incoming)), client.breaks, r)
    ensures r.Err? ==> engine.received == ""
    ensures r.Ok? ==> old(Flat(client.incoming)) == r.value.head + body
    ensures r.Ok? ==> engine.received == Rewritten(r.value.head, auth) + body
  {
    body := "";
    r := ReadHead(client);
    if r.Ok? {
      body := r.value.surplus + Flat(client.incoming);
      Forward(client, engine, r.value, auth);
    }
  }

  method Forward(client: Client, engine: Engine, h: Head, auth: string)
    requires client.Valid() && engine.received == ""
    modifies client, engine
    ensures engine.received == Rewritten(h.head, auth) + (h.surplus + old(Flat(client.incoming)))
  {
    var rewritten := RewriteHead(h.head, auth);
    engine.WriteAll(rewritten);
    engine.WriteAll(h.surplus);
    assert engine.received == rewritten + h.surplus;
    Relay(client, engine);
    assert engine.received == rewritten + (h.surplus + old(Flat(client.incoming)));
  }

  method Relay(client: Client, engine: Engine)
    requires client.Valid()
    modifies client, engine
    ensures engine.received == old(engine.received) + old(Flat(client.incoming))
  {
    while true
      invariant client.Valid()
      invariant engine.received + Flat(client.incoming) == old(engine.received) + old(Flat(client.incoming))
      decreases |Flat(client.incoming)|
    {
      var chunk := client.Read(RELAY_SIZE);
      if chunk.Err? || chunk.value == "" {
        return;
      }
      engine.WriteAll(chunk.value);
    }
  }
}
