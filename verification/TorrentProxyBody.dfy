/** What the engine receives for a request that came through the proxy: the same header lines, and the
    body where it belongs (message format of RFC 9112, section 2.1). */
module TorrentProxyBody {
  import opened Common
  import opened TorrentProxy

  // ---- where the first blank line is ------------------------------------------------------

  function Shift(e: Option<nat>, n: nat): Option<nat> { if e.None? then None else Some(e.value + n) }

  /** `p` holds no line end of its own, but perhaps one at its start that is followed by text. */
  predicate Plain(p: string) {
    NoLf(p) || (|p| > 2 && p[..2] == CRLF && NoLf(p[2..]))
  }

  lemma NoEndInside(p: string, t: string, k: nat)
    requires Plain(p) && CRLF <= t && k < |p| + 4
    ensures !EndsAt(p + t, k)
  {
    var s := p + t;
    assert s[|p|] == t[0] == '\r';
    assert |p| > 2 ==> forall i :: 2 <= i < |p| ==> s[i] == p[i] == p[2..][i - 2];
  }

  lemma EndBehind(s: string, n: nat, k: nat)
    requires n <= |s| && k >= 4
    ensures EndsAt(s, n + k) <==> EndsAt(s[n..], k)
  {
  }

  lemma FirstEnd(s: string, e: nat)
    requires EndsAt(s, e) && forall k: nat :: k < e ==> !EndsAt(s, k)
    ensures FindHeadEnd(s) == Some(e)
  {
  }

  lemma FindFrom4(s: string, n: nat)
    requires n <= |s| && forall k: nat :: k < n + 4 ==> !EndsAt(s, k)
    ensures FindHeadEnd(s) == Shift(FindHeadEnd(s[n..]), n)
  {
    var e := FindHeadEnd(s[n..]);
    forall k: nat | k < n + (if e.Some? then e.value else |s| + 1)
      ensures !EndsAt(s, k)
    {
      if k >= n + 4 {
        EndBehind(s, n, k - n);
      }
    }
    if e.Some? {
      EndBehind(s, n, e.value);
      FirstEnd(s, n + e.value);
    }
  }

  lemma FindBehind(p: string, t: string)
    requires Plain(p) && CRLF <= t
    ensures FindHeadEnd(p + t) == Shift(FindHeadEnd(t), |p|)
  {
    forall k: nat | k < |p| + 4 ensures !EndsAt(p + t, k) { NoEndInside(p, t, k); }
    FindFrom4(p + t, |p|);
    assert (p + t)[|p|..] == t;
  }

  predicate AllNoLf(lines: seq<string>) { forall i :: 0 <= i < |lines| ==> NoLf(lines[i]) }

  function FirstBlank(lines: seq<string>): (i: nat)
    ensures i <= |lines| && (forall k :: 0 <= k < i ==> lines[k] != "") && (i < |lines| ==> lines[i] == "")
  {
    if lines == [] || lines[0] == "" then 0 else 1 + FirstBlank(lines[1..])
  }

  /** The fields, the blank line and what follows. */
  function Tail(fields: seq<string>, body: string): string { Join(fields) + (CRLF + body) }

  lemma {:induction false} FirstBlankEnds(fields: seq<string>, body: string)
    requires AllNoLf(fields)
    ensures FindHeadEnd(CRLF + Tail(fields, body)) == Some(4 + |Join(fields[..FirstBlank(fields)])|)
  {
    var text := CRLF + Tail(fields, body);
    if fields == [] || fields[0] == "" {
      assert EndsAt(text, 4);
    } else {
      var rest := fields[1..];
      var p := CRLF + fields[0];
      assert text == p + (CRLF + Tail(rest, body));
      assert p[2..] == fields[0];
      FindBehind(p, CRLF + Tail(rest, body));
      FirstBlankEnds(rest, body);
      assert fields[..1 + FirstBlank(rest)][1..] == rest[..FirstBlank(rest)];
    }
  }

  // ---- the lines of a text ----------------------------------------------------------------

  lemma {:induction false} LinesHaveNoLf(text: string)
    ensures AllNoLf(Lines(text))
    decreases |text|
  {
    if text != "" {
      var i := FirstLf(text);
      if i == |text| {
        assert text[..i] == text;
      } else {
        LinesHaveNoLf(text[i + 1..]);
      }
    }
  }

  lemma FirstLfOf(line: string, rest: string)
    requires NoLf(line)
    ensures FirstLf(Ended(line) + rest) == |line| + 1
  {
    var text := Ended(line) + rest;
    var i := FirstLf(text);
    assert text[|line|] == '\r' && text[|line| + 1] == '\n';
    forall k | 0 <= k < i ensures text[k] != '\n' {
      assert text[..i][k] != '\n';
    }
    assert forall k :: 0 <= k < |line| ==> text[k] == line[k];
  }

  lemma FirstLineOf(line: string, rest: string)
    requires NoLf(line)
    ensures Lines(Ended(line) + rest) == [line] + Lines(rest)
  {
    var text := Ended(line) + rest;
    FirstLfOf(line, rest);
    assert text[..|line| + 1] == line + "\r";
    assert text[|line| + 2..] == rest;
  }

  lemma JoinFirst(lines: seq<string>, rest: string)
    requires lines != []
    ensures Join(lines) + rest == Ended(lines[0]) + (Join(lines[1..]) + rest)
  {
  }

  lemma Prepend(lines: seq<string>, more: seq<string>)
    requires lines != []
    ensures [lines[0]] + (lines[1..] + more) == lines + more
  {
  }

  /** Reading lines back is the inverse of writing them. */
  lemma {:induction false} LinesOfJoin(lines: seq<string>, rest: string)
    requires AllNoLf(lines)
    ensures Lines(Join(lines) + rest) == lines + Lines(rest)
  {
    if lines == [] {
      assert Join(lines) + rest == rest;
    } else {
      JoinFirst(lines, rest);
      FirstLineOf(lines[0], Join(lines[1..]) + rest);
      LinesOfJoin(lines[1..], rest);
      Prepend(lines, Lines(rest));
    }
  }

  /** Lines that end in LF alone. */
  function JoinLf(lines: seq<string>): string {
    if lines == [] then "" else lines[0] + ("\n" + JoinLf(lines[1..]))
  }

  lemma LfLine(line: string, rest: string)
    requires NoLf(line)
    ensures var text := line + ("\n" + rest);
      FirstLf(text) == |line| && text[..|line|] == line && text[|line| + 1..] == rest
  {
    var text := line + ("\n" + rest);
    var i := FirstLf(text);
    assert text[|line|] == '\n';
    forall k | 0 <= k < i ensures text[k] != '\n' {
      assert text[..i][k] != '\n';
    }
    assert forall k :: 0 <= k < |line| ==> text[k] == line[k];
  }

  /** A head may as well end its lines with LF alone. */
  lemma {:induction false} LinesOfLf(lines: seq<string>)
    requires AllNoLf(lines)
    requires forall i :: 0 <= i < |lines| ==> lines[i] == "" || lines[i][|lines[i]| - 1] != '\r'
    ensures Lines(JoinLf(lines)) == lines
    decreases |lines|
  {
    if lines != [] {
      LinesOfLf(lines[1..]);
      LfLine(lines[0], JoinLf(lines[1..]));
      assert StripCr(lines[0]) == lines[0];
    }
  }

  lemma CredentialsHaveNoLf(fields: seq<string>, auth: string)
    requires NoLf(auth)
    ensures AllNoLf(Credentials(fields, auth))
  {
  }

  lemma ClosingHaveNoLf(fields: seq<string>)
    requires AllNoLf(fields)
    ensures AllNoLf(AllClosing(fields))
  {
  }

  lemma EmittedHaveNoLf(head: string, auth: string)
    requires NoLf(auth)
    ensures AllNoLf(Emitted(Kept(head), auth))
  {
    LinesHaveNoLf(head);
    KeptIsPrefix(Lines(head));
    var lines := Kept(head);
    assert AllNoLf(lines) by {
      assert forall i :: 0 <= i < |lines| ==> lines[i] == Lines(head)[i];
    }
    CredentialsHaveNoLf(Fields(lines), auth);
    ClosingHaveNoLf(Fields(lines));
  }

  lemma LinesOfJoined(lines: seq<string>)
    requires AllNoLf(lines)
    ensures Lines(Join(lines) + CRLF) == lines + [""]
  {
    LinesOfJoin(lines, CRLF);
    FirstLineOf("", "");
    assert Ended("") + "" == CRLF;
  }

  /** The engine reads the client's lines, in order: `Connection` fields closed, and one `Authorization`
      field after the request line if the client sent no credentials. */
  lemma EngineSeesTheLines(head: string, auth: string)
    requires NoLf(auth)
    ensures Lines(Rewritten(head, auth)) == Emitted(Kept(head), auth) + [""]
  {
    EmittedHaveNoLf(head, auth);
    LinesOfJoined(Emitted(Kept(head), auth));
  }

  lemma {:induction false} KeptIsPrefix(lines: seq<string>)
    ensures DropBlankEnd(lines) <= lines
    ensures forall i :: |DropBlankEnd(lines)| <= i < |lines| ==> lines[i] == ""
  {
    if lines != [] && lines[|lines| - 1] == "" {
      KeptIsPrefix(lines[..|lines| - 1]);
    }
  }

  /** The line begins with this field name, in whatever case. */
  predicate Named(line: string, name: string) {
    |line| >= |name| && forall i :: 0 <= i < |name| ==>
      line[i] == name[i] || ('A' <= line[i] <= 'Z' && line[i] as int + 32 == name[i] as int)
  }

  predicate Credential(line: string) { Named(line, "authorization") || Named(line, "proxy-authorization") }

  lemma NamedIff(line: string, name: string)
    requires forall i :: 0 <= i < |name| ==> !('A' <= name[i] <= 'Z')
    ensures Named(line, name) <==> StartsWith(line, name)
  {
    forall i | 0 <= i < |name| && i < |line|
      ensures Lower(line[i]) == name[i]
           <==> line[i] == name[i] || ('A' <= line[i] <= 'Z' && line[i] as int + 32 == name[i] as int)
    {
    }
  }

  /** What the engine is to read for a line of the client. */
  function ReadAs(line: string): string { if Named(line, "connection") then "Connection: close" else line }

  /** Line by line: the request line, our credentials if the client sent none, the client's fields with every
      `Connection` closed, a blank line. */
  ghost predicate ReadFor(sent: seq<string>, got: seq<string>, auth: string) {
    var own := exists i :: 1 <= i < |sent| && Credential(sent[i]);
    && sent != [] && |got| == |sent| + (if own then 1 else 2) && got[0] == sent[0] && got[|got| - 1] == ""
    && (!own ==> got[1] == "Authorization: " + auth)
    && forall i :: 1 <= i < |sent| ==> got[if own then i else i + 1] == ReadAs(sent[i])
  }

  /** The client's lines are all of its head but the blank ones at its end. */
  lemma ClientLines(head: string)
    requires Kept(head) != []
    ensures Kept(head) <= Lines(head) && Kept(head)[|Kept(head)| - 1] != ""
    ensures forall i :: |Kept(head)| <= i < |Lines(head)| ==> Lines(head)[i] == ""
  {
    KeptIsPrefix(Lines(head));
    KeptEndsFull(Lines(head));
  }

  /** What the engine reads for them. */
  lemma EngineReads(head: string, auth: string)
    requires NoLf(auth) && Kept(head) != []
    ensures ReadFor(Kept(head), Lines(Rewritten(head, auth)), auth)
  {
    EngineSeesTheLines(head, auth);
    EmittedIsRead(Kept(head), auth);
  }

  lemma OwnIff(lines: seq<string>)
    requires lines != []
    ensures HasAuth(Fields(lines)) <==> exists i :: 1 <= i < |lines| && Credential(lines[i])
  {
    var fields := Fields(lines);
    forall i | 0 <= i < |lines| ensures Credential(lines[i]) == IsAuth(lines[i]) {
      NamedIff(lines[i], "authorization");
      NamedIff(lines[i], "proxy-authorization");
    }
    if i :| 1 <= i < |lines| && Credential(lines[i]) {
      assert IsAuth(fields[i - 1]);
    }
    if HasAuth(fields) {
      var i :| 0 <= i < |fields| && IsAuth(fields[i]);
      assert Credential(lines[i + 1]);
    }
  }

  lemma InParts(first: string, middle: seq<string>, rest: seq<string>)
    ensures var got := [first] + (middle + rest) + [""];
      && |got| == |middle| + |rest| + 2 && got[0] == first && got[|got| - 1] == ""
      && (forall i :: 0 <= i < |middle| ==> got[1 + i] == middle[i])
      && forall i :: 0 <= i < |rest| ==> got[1 + |middle| + i] == rest[i]
  {
  }

  lemma PartsAreRead(lines: seq<string>, middle: seq<string>, rest: seq<string>, got: seq<string>, auth: string)
    requires lines != [] && |rest| == |lines| - 1 && |got| == |middle| + |rest| + 2
    requires got[0] == lines[0] && got[|got| - 1] == ""
    requires middle == if HasAuth(Fields(lines)) then [] else [Authorization(auth)]
    requires forall i :: 0 <= i < |middle| ==> got[1 + i] == middle[i]
    requires forall i :: 0 <= i < |rest| ==> got[1 + |middle| + i] == rest[i] == Closing(lines[i + 1])
    ensures ReadFor(lines, got, auth)
  {
    OwnIff(lines);
    if !HasAuth(Fields(lines)) {
      assert got[1 + 0] == middle[0];
    }
    forall i | 1 <= i < |lines| ensures got[|middle| + i] == ReadAs(lines[i]) {
      NamedIff(lines[i], "connection");
      assert got[1 + |middle| + (i - 1)] == rest[i - 1];
    }
  }

  lemma EmittedIsRead(lines: seq<string>, auth: string)
    requires lines != []
    ensures ReadFor(lines, Emitted(lines, auth) + [""], auth)
  {
    var middle, rest := Credentials(Fields(lines), auth), AllClosing(Fields(lines));
    InParts(lines[0], middle, rest);
    assert Emitted(lines, auth) == [lines[0]] + (middle + rest);
    PartsAreRead(lines, middle, rest, [lines[0]] + (middle + rest) + [""], auth);
  }

  /** A blank line before the last line that is not blank. */
  ghost predicate BlankInside(head: string) {
    exists i, j :: 1 <= i < j < |Lines(head)| && Lines(head)[i] == "" && Lines(head)[j] != ""
  }

  lemma BlankInsideIffKept(head: string)
    ensures BlankInside(head) <==> FirstBlank(Fields(Kept(head))) < |Fields(Kept(head))|
  {
    var lines, kept := Lines(head), Kept(head);
    KeptIsPrefix(lines);
    KeptEndsFull(lines);
    var fields := Fields(kept);
    if BlankInside(head) {
      var i, j :| 1 <= i < j < |lines| && lines[i] == "" && lines[j] != "";
      assert j < |kept| && fields[i - 1] == kept[i] == lines[i];
    }
    if FirstBlank(fields) < |fields| {
      var i := FirstBlank(fields) + 1;
      assert kept[i] == fields[i - 1] == "" && lines[i] == kept[i] && lines[|kept| - 1] == kept[|kept| - 1];
    }
  }

  lemma {:induction false} KeptEndsFull(lines: seq<string>)
    ensures DropBlankEnd(lines) != [] ==> DropBlankEnd(lines)[|DropBlankEnd(lines)| - 1] != ""
  {
    if lines != [] && lines[|lines| - 1] == "" {
      KeptEndsFull(lines[..|lines| - 1]);
    }
  }

  lemma ClosingKeepsBlanks(fields: seq<string>, credentials: seq<string>)
    requires forall i :: 0 <= i < |credentials| ==> credentials[i] != ""
    ensures var sent := credentials + AllClosing(fields);
      FirstBlank(sent) < |sent| <==> FirstBlank(fields) < |fields|
  {
    var sent := credentials + AllClosing(fields);
    assert forall i :: 0 <= i < |fields| ==> (fields[i] == "" <==> Closing(fields[i]) == "");
    assert forall i :: 0 <= i < |fields| ==> sent[|credentials| + i] == Closing(fields[i]);
    if FirstBlank(fields) < |fields| {
      assert sent[|credentials| + FirstBlank(fields)] == "";
    }
  }

  lemma JoinGrows(lines: seq<string>, n: nat)
    requires n <= |lines|
    ensures |Join(lines[..n])| == |Join(lines)| <==> n == |lines|
  {
    JoinPlus(lines[..n], lines[n..]);
    assert lines[..n] + lines[n..] == lines;
  }

  lemma JoinedEnds(first: string, sent: seq<string>, body: string)
    requires NoLf(first) && AllNoLf(sent)
    ensures var head := Join([first] + sent) + CRLF;
      FindHeadEnd(head + body) == Some(|head|) <==> FirstBlank(sent) == |sent|
  {
    assert ([first] + sent)[1..] == sent;
    assert Join([first] + sent) + CRLF + body == first + (CRLF + Tail(sent, body));
    FindBehind(first, CRLF + Tail(sent, body));
    FirstBlankEnds(sent, body);
    JoinGrows(sent, FirstBlank(sent));
  }

  lemma EmittedEnds(lines: seq<string>, auth: string, body: string)
    requires AllNoLf(Emitted(lines, auth)) && lines != []
    ensures var head := Join(Emitted(lines, auth)) + CRLF;
      FindHeadEnd(head + body) == Some(|head|) <==> FirstBlank(Fields(lines)) == |Fields(lines)|
  {
    var all := Emitted(lines, auth);
    var sent := SentFields(Fields(lines), auth);
    assert all == [lines[0]] + sent && NoLf(all[0]);
    assert AllNoLf(sent) by {
      assert forall i :: 0 <= i < |sent| ==> sent[i] == all[i + 1];
    }
    JoinedEnds(lines[0], sent, body);
    ClosingKeepsBlanks(Fields(lines), Credentials(Fields(lines), auth));
  }

  lemma RewrittenEnds(lines: seq<string>, auth: string, body: string)
    requires AllNoLf(Emitted(lines, auth))
    ensures var head := Join(Emitted(lines, auth)) + CRLF;
      FindHeadEnd(head + body) == Some(|head|) <==> FirstBlank(Fields(lines)) == |Fields(lines)|
  {
    if lines == [] {
      var all := Emitted(lines, auth);
      assert all == [Authorization(auth)] + [] && NoLf(all[0]);
      JoinedEnds(Authorization(auth), [], body);
    } else {
      EmittedEnds(lines, auth, body);
    }
  }

  /** The engine finds the body where the client put it if and only if no blank line is inside the head. */
  lemma BodyNotShiftedIff(head: string, auth: string, body: string)
    requires NoLf(auth)
    ensures FindHeadEnd(Rewritten(head, auth) + body) == Some(|Rewritten(head, auth)|) <==> !BlankInside(head)
  {
    EmittedHaveNoLf(head, auth);
    BlankInsideIffKept(head);
    RewrittenEnds(Kept(head), auth, body);
  }

  // ---- heads whose line ends are CRLF -----------------------------------------------------

  /** Every LF is preceded by CR. */
  predicate CrlfOnly(s: string) {
    forall i :: 0 <= i < |s| && s[i] == '\n' ==> i > 0 && s[i - 1] == '\r'
  }

  lemma SplitAtCrlf(text: string, i: nat)
    requires 0 < i < |text| && text[i - 1] == '\r' && text[i] == '\n'
    ensures text == Ended(StripCr(text[..i])) + text[i + 1..]
  {
  }

  lemma CrlfOnlyBehind(text: string, i: nat)
    requires CrlfOnly(text) && i < |text| && text[i] == '\n'
    ensures CrlfOnly(text[i + 1..])
  {
  }

  lemma {:induction false} JoinOfLines(text: string)
    requires CrlfOnly(text) && (text == "" || text[|text| - 1] == '\n')
    ensures Join(Lines(text)) == text
    decreases |text|
  {
    if text != "" {
      assert text[..|text|] == text;
      var i := FirstLf(text);
      SplitAtCrlf(text, i);
      CrlfOnlyBehind(text, i);
      JoinOfLines(text[i + 1..]);
    }
  }

  lemma LineBeforeEnd(before: string, last: string)
    requires EndsAt(before + Ended(last), |before| + |last| + 2)
    ensures last != "" ==> last[|last| - 1] == '\n'
  {
    var head := before + Ended(last);
    assert last != "" ==> last[|last| - 1] == head[|head| - 3];
  }

  lemma LastLine(lines: seq<string>)
    requires lines != [] && AllNoLf(lines) && EndsAt(Join(lines), |Join(lines)|)
    ensures lines[|lines| - 1] == "" && Join(lines) == Join(lines[..|lines| - 1]) + CRLF
  {
    var before, last := lines[..|lines| - 1], lines[|lines| - 1];
    assert before + [last] == lines;
    JoinPush(before, last);
    LineBeforeEnd(Join(before), last);
    assert Ended("") == CRLF;
  }

  lemma LastLineIsBlank(head: string)
    requires EndsAt(head, |head|) && CrlfOnly(head)
    ensures var n := |Lines(head)|; n > 0 && Lines(head)[n - 1] == "" && Join(Lines(head)[..n - 1]) + CRLF == head
  {
    JoinOfLines(head);
    LinesHaveNoLf(head);
    LastLine(Lines(head));
  }

  /** A head as `read_head` cuts it, with CRLF line ends, has no blank line inside. */
  lemma NoBlankInside(head: string)
    requires FindHeadEnd(head) == Some(|head|) && CrlfOnly(head)
    ensures !BlankInside(head)
  {
    var lines := Lines(head);
    LastLineIsBlank(head);
    LinesHaveNoLf(head);
    var sent := lines[1..|lines| - 1];
    assert [lines[0]] + sent == lines[..|lines| - 1];
    JoinedEnds(lines[0], sent, "");
    assert head + "" == head;
    assert forall i :: 1 <= i < |lines| - 1 ==> lines[i] == sent[i - 1];
  }

  lemma HeadEndsItself(head: string, body: string)
    requires FindHeadEnd(head + body) == Some(|head|)
    ensures FindHeadEnd(head) == Some(|head|) && (head + body)[|head|..] == body
  {
    FindInLonger(head, body);
    assert EndsAt(head, |head|);
  }

  /** End to end: for every text whose first blank line ends `head`, the engine's first blank line ends
      the rewritten head, and behind it comes exactly the client's body. */
  lemma BodyNeverShifted(head: string, body: string, auth: string)
    requires FindHeadEnd(head + body) == Some(|head|) && CrlfOnly(head) && NoLf(auth)
    ensures FindHeadEnd(Rewritten(head, auth) + body) == Some(|Rewritten(head, auth)|)
    ensures (Rewritten(head, auth) + body)[|Rewritten(head, auth)|..] == body
  {
    HeadEndsItself(head, body);
    NoBlankInside(head);
    BodyNotShiftedIff(head, auth, body);
    HeadEndsItself(Rewritten(head, auth), body);
  }

  /** One connection, end to end: behind the first blank line the engine receives is the body, and the body is
      all that the client sent behind its own first blank line. */
  method HandleAndDeliver(client: Client, engine: Engine, auth: string) returns (r: Result<Head, Failure>)
    requires client.Valid() && engine.received == "" && NoLf(auth)
    modifies client, engine
    ensures r.Ok? && CrlfOnly(r.value.head) ==>
      var sent := old(Flat(client.incoming));
      && FindHeadEnd(engine.received).Some? && FindHeadEnd(sent) == Some(|r.value.head|)
      && engine.received[..FindHeadEnd(engine.received).value] == Rewritten(r.value.head, auth)
      && engine.received[FindHeadEnd(engine.received).value..] == sent[|r.value.head|..]
    ensures r.Err? ==> engine.received == ""
  {
    ghost var body;
    r, body := HandleConnection(client, engine, auth);
    if r.Ok? && CrlfOnly(r.value.head) {
      BodyNeverShifted(r.value.head, body, auth);
    }
  }
}
