/** Rewriting the rows of MPD's queue that point at a former run's proxy port
    (src/ctx.rs, src/core/stream_cache.rs). */
module QueueRepair {
  import opened Common

  // ---- buffered URLs ----------------------------------------------------------------------

  const PREFIX := "http://127.0.0.1:"
  const BUFFERED := "s2u/"

  predicate Digit(c: char) { '0' <= c <= '9' }

  predicate AllDigits(s: string) { forall i :: 0 <= i < |s| ==> Digit(s[i]) }

  function Value(digits: string): nat
    requires AllDigits(digits)
  {
    if digits == "" then 0
    else
      var last := digits[|digits| - 1];
      assert Digit(last);
      10 * Value(digits[..|digits| - 1]) + (last as int - '0' as int)
  }

  function Decimal(n: nat): (s: string)
    ensures s != "" && AllDigits(s)
  {
    var last := ['0' + (n % 10) as char];
    if n < 10 then last else Decimal(n / 10) + last
  }

  lemma {:induction false} ValueOfDecimal(n: nat)
    ensures Value(Decimal(n)) == n
  {
    if n >= 10 {
      ValueOfDecimal(n / 10);
      assert Decimal(n)[..|Decimal(n)| - 1] == Decimal(n / 10);
    }
  }

  /** A 16-bit number: digits, perhaps after a plus sign. */
  function ParsePort(s: string): Option<nat> {
    var digits := if s != "" && s[0] == '+' then s[1..] else s;
    if digits == "" || !AllDigits(digits) then None
    else if Value(digits) > 0xFFFF then None
    else Some(Value(digits))
  }

  function Slash(s: string): (i: nat)
    ensures i <= |s| && (forall k :: 0 <= k < i ==> s[k] != '/') && (i < |s| ==> s[i] == '/')
  {
    if s == "" || s[0] == '/' then 0 else 1 + Slash(s[1..])
  }

  function Buffered(port: string, tail: string): string { PREFIX + (port + (['/'] + tail)) }

  function UrlWithPort(url: string, port: nat): Option<string> {
    if !(PREFIX <= url) then None
    else
      var rest := url[|PREFIX|..];
      var i := Slash(rest);
      if i == |rest| then None
      else
        var rowPort, tail := rest[..i], rest[i + 1..];
        if !(BUFFERED <= tail) || ParsePort(rowPort).None? || ParsePort(rowPort) == Some(port) then None
        else Some(Buffered(Decimal(port), tail))
  }

  lemma SlashOf(port: string, tail: string)
    requires forall k :: 0 <= k < |port| ==> port[k] != '/'
    ensures Slash(port + (['/'] + tail)) == |port|
  {
    var s := port + (['/'] + tail);
    assert s[|port|] == '/' && forall k :: 0 <= k < |port| ==> s[k] == port[k];
  }

  lemma ParseDecimal(port: nat)
    requires port <= 0xFFFF
    ensures ParsePort(Decimal(port)) == Some(port)
  {
    ValueOfDecimal(port);
    assert Digit(Decimal(port)[0]);
  }

  /** A rewritten URL is on the port: it is never rewritten again. */
  lemma RewrittenOnce(url: string, port: nat)
    requires port <= 0xFFFF && UrlWithPort(url, port).Some?
    ensures UrlWithPort(UrlWithPort(url, port).value, port) == None
  {
    var rest := url[|PREFIX|..];
    var tail := rest[Slash(rest) + 1..];
    var now := Buffered(Decimal(port), tail);
    var after := Decimal(port) + (['/'] + tail);
    assert now[|PREFIX|..] == after;
    SlashOf(Decimal(port), tail);
    assert after[..|Decimal(port)|] == Decimal(port);
    ParseDecimal(port);
  }

  function Power(n: nat): nat { if n == 0 then 1 else 10 * Power(n - 1) }

  /** Digits count by their place... */
  lemma {:induction false} PlaceValue(a: string, b: string)
    requires AllDigits(a) && AllDigits(b)
    ensures AllDigits(a + b) && Value(a + b) == Value(a) * Power(|b|) + Value(b)
    decreases |b|
  {
    if b == "" {
      assert a + b == a;
    } else {
      var before := b[..|b| - 1];
      PlaceValue(a, before);
      assert (a + b)[..|a + b| - 1] == a + before && (a + b)[|a + b| - 1] == b[|b| - 1];
      assert Digit(b[|b| - 1]);
      TimesTen(Value(a), Power(|before|), Value(before));
    }
  }

  lemma TimesTen(x: nat, p: nat, y: nat)
    ensures 10 * (x * p + y) == x * (10 * p) + 10 * y
  {
  }

  /** ...and each for itself. */
  lemma DigitValue(c: char)
    requires Digit(c)
    ensures AllDigits([c]) && Value([c]) == c as int - '0' as int
  {
    assert [c][..0] == "";
  }

  /** The port is printed without a leading zero. */
  lemma {:induction false} NoLeadingZero(n: nat)
    ensures n > 0 ==> Decimal(n)[0] != '0'
    ensures n == 0 ==> Decimal(n) == "0"
  {
    if n >= 10 {
      NoLeadingZero(n / 10);
      assert Decimal(n)[0] == Decimal(n / 10)[0];
    }
  }

  /** `s` is written with these digits, perhaps behind a plus sign. */
  predicate WrittenWith(s: string, digits: string) {
    (s == digits || s == "+" + digits) && digits != "" && AllDigits(digits)
  }

  /** `s` is a numeral, perhaps behind a plus sign, of a number that fits 16 bits. */
  ghost predicate IsPort(s: string, n: nat) {
    n <= 65_535 && exists digits: string :: WrittenWith(s, digits) && Value(digits) == n
  }

  lemma OneWriting(s: string, digits: string)
    requires WrittenWith(s, digits)
    ensures s != "" && digits == if s[0] == '+' then s[1..] else s
  {
    assert s == digits ==> Digit(s[0]);
  }

  lemma PortIff(s: string, n: nat)
    ensures ParsePort(s) == Some(n) <==> IsPort(s, n)
  {
    var digits := if s != "" && s[0] == '+' then s[1..] else s;
    if ParsePort(s) == Some(n) {
      assert s == digits || s == "+" + digits;
      assert WrittenWith(s, digits);
    }
    if IsPort(s, n) {
      var other: string :| WrittenWith(s, other) && Value(other) == n;
      OneWriting(s, other);
    }
  }

  /** A URL of the stream buffer: its port as written, and the path behind it. */
  ghost predicate IsBuffered(url: string, port: string, path: string) {
    && url == "http://127.0.0.1:" + (port + ("/" + path))
    && (forall k :: 0 <= k < |port| ==> port[k] != '/') && "s2u/" <= path
  }

  lemma BufferedParts(url: string, port: string, path: string)
    requires IsBuffered(url, port, path)
    ensures PREFIX <= url && Slash(url[|PREFIX|..]) == |port|
    ensures url[|PREFIX|..][..|port|] == port && url[|PREFIX|..][|port| + 1..] == path
  {
    SlashOf(port, path);
    assert url[|PREFIX|..] == port + ("/" + path);
  }

  /** The URL is one of the buffer on another port, and `fixed` is the same on this one. */
  ghost predicate Repairs(url: string, port: nat, fixed: string, was: string, path: string, n: nat) {
    IsBuffered(url, was, path) && IsPort(was, n) && n != port
    && fixed == "http://127.0.0.1:" + (Decimal(port) + ("/" + path))
  }

  lemma RewrittenRepairs(url: string, port: nat) returns (was: string, path: string, n: nat)
    requires UrlWithPort(url, port).Some?
    ensures Repairs(url, port, UrlWithPort(url, port).value, was, path, n)
  {
    var rest := url[|PREFIX|..];
    var i := Slash(rest);
    was, path := rest[..i], rest[i + 1..];
    n := ParsePort(was).value;
    Taken(url);
    PortIff(was, n);
  }

  lemma Taken(url: string)
    requires PREFIX <= url
    ensures var rest := url[|PREFIX|..]; var i := Slash(rest);
      i < |rest| && "s2u/" <= rest[i + 1..] ==> IsBuffered(url, rest[..i], rest[i + 1..])
  {
    var rest := url[|PREFIX|..];
    assert url == PREFIX + rest;
    if Slash(rest) < |rest| {
      CutAtSlash(rest, Slash(rest));
    }
  }

  lemma CutAtSlash(rest: string, i: nat)
    requires i < |rest| && rest[i] == '/'
    ensures rest == rest[..i] + ("/" + rest[i + 1..])
  {
  }

  lemma RepairsRewritten(url: string, port: nat, fixed: string, was: string, path: string, n: nat)
    requires Repairs(url, port, fixed, was, path, n)
    ensures UrlWithPort(url, port) == Some(fixed)
  {
    BufferedParts(url, was, path);
    PortIff(was, n);
  }

  /** Exactly the buffered URLs on another port are rewritten, and only the port changes. */
  lemma RewrittenIff(url: string, port: nat, fixed: string)
    ensures UrlWithPort(url, port) == Some(fixed)
       <==> exists was: string, path: string, n: nat :: Repairs(url, port, fixed, was, path, n)
  {
    if UrlWithPort(url, port) == Some(fixed) {
      var was, path, n := RewrittenRepairs(url, port);
      assert Repairs(url, port, fixed, was, path, n);
    }
    if was: string, path: string, n: nat :| Repairs(url, port, fixed, was, path, n) {
      RepairsRewritten(url, port, fixed, was, path, n);
    }
  }

  // ---- MPD's queue ------------------------------------------------------------------------

  datatype Song = Song(id: nat, file: string)

  /** The queue and the commands that will fail: deleting an id in `stuck`, adding a file in `refused`.
      New rows get ids from `nextId` on. */
  datatype Server = Server(rows: seq<Song>, nextId: nat, stuck: set<nat>, refused: set<string>)

  function Without(rows: seq<Song>, id: nat): seq<Song> {
    if rows == [] then []
    else if rows[0].id == id then rows[1..]
    else [rows[0]] + Without(rows[1..], id)
  }

  function AfterDelete(s: Server, id: nat): Server {
    if id in s.stuck then s else s.(rows := Without(s.rows, id))
  }

  predicate Accepts(s: Server, file: string, at: nat) { file !in s.refused && at <= |s.rows| }

  function AfterAdd(s: Server, file: string, at: nat): Server
    requires Accepts(s, file, at)
  {
    s.(rows := s.rows[..at] + [Song(s.nextId, file)] + s.rows[at..], nextId := s.nextId + 1)
  }

  class Mpd {
    var server: Server

    constructor (server: Server)
      ensures this.server == server
    {
      this.server := server;
    }

    method DeleteId(id: nat) returns (ok: bool)
      modifies this
      ensures server == AfterDelete(old(server), id) && ok == (id !in server.stuck)
    {
      ok := id !in server.stuck;
      server := AfterDelete(server, id);
    }

    method AddId(file: string, at: nat) returns (r: Result<nat, ()>)
      modifies this
      ensures r.Ok? == Accepts(old(server), file, at)
      ensures r.Ok? ==> server == AfterAdd(old(server), file, at) && r.value == old(server).nextId
      ensures r.Err? ==> server == old(server)
    {
      if !Accepts(server, file, at) {
        return Err(());
      }
      r := Ok(server.nextId);
      server := AfterAdd(server, file, at);
    }
  }

  datatype Outcome = Outcome(server: Server, ok: bool, changed: bool)

  /** A row of the snapshot, with the URL it is to get. */
  datatype Row = Row(id: nat, file: string, fixed: Option<string>) {
    function Old(): Song { Song(id, file) }
  }

  function Plan(songs: seq<Song>, port: nat): (queue: seq<Row>)
    ensures |queue| == |songs|
  {
    seq(|songs|, i requires 0 <= i < |songs| => Row(songs[i].id, songs[i].file, UrlWithPort(songs[i].file, port)))
  }

  /** The loop from row `i` of the snapshot on. */
  function RepairFrom(s: Server, queue: seq<Row>, i: nat, changed: bool): Outcome
    requires i <= |queue|
    decreases |queue| - i
  {
    if i == |queue| then Outcome(s, true, changed)
    else
      var fixed := queue[i].fixed;
      if fixed.None? then RepairFrom(s, queue, i + 1, changed)
      else
        var t := AfterDelete(s, queue[i].id);
        if !Accepts(t, fixed.value, i) then Outcome(t, false, changed)
        else RepairFrom(AfterAdd(t, fixed.value, i), queue, i + 1, true)
  }

  /** `None` when nothing changed, else the refreshed queue; an error when MPD refused a row. */
  method RepairBufferedQueuePorts(mpd: Mpd, songs: seq<Song>, currentPort: Option<nat>)
    returns (r: Result<Option<seq<Song>>, ()>)
    modifies mpd
    ensures currentPort.None? ==> r == Ok(None) && mpd.server == old(mpd.server)
    ensures currentPort.Some? ==>
      var o := RepairFrom(old(mpd.server), Plan(songs, currentPort.value), 0, false);
      mpd.server == o.server && r == if !o.ok then Err(()) else if o.changed then Ok(Some(o.server.rows)) else Ok(None)
  {
    if currentPort.None? {
      return Ok(None);
    }
    ghost var plan := Plan(songs, currentPort.value);
    var changed := false;
    for index := 0 to |songs|
      invariant RepairFrom(mpd.server, plan, index, changed) == RepairFrom(old(mpd.server), plan, 0, false)
    {
      var song := songs[index];
      var fixed := UrlWithPort(song.file, currentPort.value);
      if fixed.None? {
        continue;
      }
      var _ := mpd.DeleteId(song.id);
      var added := mpd.AddId(fixed.value, index);
      if added.Err? {
        return Err(());
      }
      changed := true;
    }
    if !changed {
      return Ok(None);
    }
    return Ok(Some(mpd.server.rows));
  }

  // ---- what a repair does -----------------------------------------------------------------

  function NewFile(row: Row): string {
    if row.fixed.Some? then row.fixed.value else row.file
  }

  predicate Rewrites(row: Row) { row.fixed.Some? }

  function Songs(queue: seq<Row>): (songs: seq<Song>)
    ensures |songs| == |queue|
  {
    seq(|queue|, i requires 0 <= i < |queue| => queue[i].Old())
  }

  ghost predicate UniqueIds(rows: seq<Song>) {
    forall i, j :: 0 <= i < j < |rows| ==> rows[i].id != rows[j].id
  }

  ghost predicate Below(rows: seq<Song>, bound: nat) { forall i :: 0 <= i < |rows| ==> rows[i].id < bound }

  /** The snapshot's ids are distinct and older than `base`. */
  ghost predicate DistinctBelow(queue: seq<Row>, base: nat) {
    && (forall i, j :: 0 <= i < j < |queue| ==> queue[i].id != queue[j].id)
    && forall i :: 0 <= i < |queue| ==> queue[i].id < base
  }

  /** The snapshot is MPD's queue, ids are unique, and new ids are new. */
  ghost predicate Fresh(s: Server, queue: seq<Row>) {
    s.rows == Songs(queue) && DistinctBelow(queue, s.nextId)
  }

  lemma FreshIds(s: Server, queue: seq<Row>)
    requires Fresh(s, queue)
    ensures UniqueIds(s.rows) && Below(s.rows, s.nextId)
    ensures forall i :: 0 <= i < |queue| ==> s.rows[i] == queue[i].Old()
  {
  }

  ghost predicate NoneStuck(stuck: set<nat>, queue: seq<Row>) {
    forall i :: 0 <= i < |queue| && Rewrites(queue[i]) ==> queue[i].id !in stuck
  }

  ghost predicate NoneRefused(refused: set<string>, queue: seq<Row>) {
    forall i :: 0 <= i < |queue| ==> Agreeable(refused, queue[i])
  }

  predicate Agreeable(refused: set<string>, row: Row) {
    Rewrites(row) ==> NewFile(row) !in refused
  }

  /** The first `n` rows rewritten: unchanged ones keep their ids, changed ones have ids from `base` on. */
  ghost predicate RewrittenTo(rows: seq<Song>, queue: seq<Row>, n: nat, base: nat)
    requires n <= |queue| && n <= |rows|
  {
    forall i :: 0 <= i < n ==> RowRewritten(rows[i], queue[i], base)
  }

  predicate RowRewritten(now: Song, row: Row, base: nat) {
    now.file == NewFile(row) && if Rewrites(row) then now.id >= base else now.id == row.id
  }

  lemma {:induction false} WithoutAt(rows: seq<Song>, k: nat)
    requires k < |rows| && forall j :: 0 <= j < k ==> rows[j].id != rows[k].id
    ensures Without(rows, rows[k].id) == rows[..k] + rows[k + 1..]
    decreases |rows|
  {
    if k > 0 {
      WithoutAt(rows[1..], k - 1);
      assert [rows[0]] + (rows[1..][..k - 1] + rows[1..][k..]) == rows[..k] + rows[k + 1..];
    }
  }

  /** Deleting row `i` and adding at `i` replaces the row. */
  lemma ReplaceRow(s: Server, i: nat, file: string)
    requires UniqueIds(s.rows) && i < |s.rows| && s.rows[i].id !in s.stuck && file !in s.refused
    ensures var t := AfterDelete(s, s.rows[i].id);
      Accepts(t, file, i)
      && AfterAdd(t, file, i) == s.(rows := s.rows[i := Song(s.nextId, file)], nextId := s.nextId + 1)
  {
    WithoutAt(s.rows, i);
    var rows := s.rows[..i] + s.rows[i + 1..];
    assert rows[..i] + [Song(s.nextId, file)] + rows[i..] == s.rows[i := Song(s.nextId, file)];
  }

  /** The queue after `i` rows were looked at and all went well. */
  ghost predicate Halfway(s: Server, queue: seq<Row>, i: nat, base: nat) {
    && |s.rows| == |queue| && i <= |queue| && base <= s.nextId
    && DistinctBelow(queue, base) && Below(s.rows, s.nextId)
    && UniqueIds(s.rows)
    && RewrittenTo(s.rows, queue, i, base)
    && forall k :: i <= k < |queue| ==> s.rows[k] == queue[k].Old()
  }

  function AfterRow(s: Server, row: Row, i: nat): Server
    requires Accepts(AfterDelete(s, row.id), NewFile(row), i)
  {
    AfterAdd(AfterDelete(s, row.id), NewFile(row), i)
  }

  lemma HalfwayStep(s: Server, queue: seq<Row>, i: nat, base: nat, changed: bool)
    requires Halfway(s, queue, i, base) && i < |queue| && Rewrites(queue[i])
    requires queue[i].id !in s.stuck && Agreeable(s.refused, queue[i])
    ensures Accepts(AfterDelete(s, queue[i].id), NewFile(queue[i]), i)
    ensures var t := AfterRow(s, queue[i], i);
      && Halfway(t, queue, i + 1, base) && t.stuck == s.stuck && t.refused == s.refused
      && RepairFrom(s, queue, i, changed) == RepairFrom(t, queue, i + 1, true)
  {
    ReplaceRow(s, i, NewFile(queue[i]));
  }

  lemma {:induction false} GoodRun(s: Server, queue: seq<Row>, i: nat, base: nat, changed: bool)
    requires Halfway(s, queue, i, base) && NoneStuck(s.stuck, queue) && NoneRefused(s.refused, queue)
    ensures var o := RepairFrom(s, queue, i, changed);
      && o.ok && Halfway(o.server, queue, |queue|, base)
      && (o.changed <==> changed || exists k :: i <= k < |queue| && Rewrites(queue[k]))
    decreases |queue| - i
  {
    if i < |queue| {
      if Rewrites(queue[i]) {
        HalfwayStep(s, queue, i, base, changed);
        GoodRun(AfterRow(s, queue[i], i), queue, i + 1, base, true);
      } else {
        GoodRun(s, queue, i + 1, base, changed);
      }
    }
  }

  /** The live queue becomes the pointwise rewrite of the old one: same length, same order, unchanged rows
      keep their ids, no id twice; and the port's rows are refreshed exactly when there are any. */
  lemma RepairRefinesMap(s: Server, queue: seq<Row>)
    requires Fresh(s, queue) && NoneStuck(s.stuck, queue) && NoneRefused(s.refused, queue)
    ensures var o := RepairFrom(s, queue, 0, false);
      && o.ok && |o.server.rows| == |queue| && UniqueIds(o.server.rows)
      && RewrittenTo(o.server.rows, queue, |queue|, s.nextId)
      && (o.changed <==> exists k :: 0 <= k < |queue| && Rewrites(queue[k]))
  {
    FreshIds(s, queue);
    GoodRun(s, queue, 0, s.nextId, false);
  }

  lemma {:induction false} NothingToDo(s: Server, queue: seq<Row>, i: nat)
    requires i <= |queue| && forall k :: 0 <= k < |queue| ==> !Rewrites(queue[k])
    ensures RepairFrom(s, queue, i, false) == Outcome(s, true, false)
    decreases |queue| - i
  {
    if i < |queue| {
      NothingToDo(s, queue, i + 1);
    }
  }

  /** A second repair finds nothing to do. */
  lemma RepairIsIdempotent(s: Server, songs: seq<Song>, port: nat)
    requires port <= 0xFFFF && Fresh(s, Plan(songs, port))
    requires NoneStuck(s.stuck, Plan(songs, port)) && NoneRefused(s.refused, Plan(songs, port))
    ensures var t := RepairFrom(s, Plan(songs, port), 0, false).server;
      RepairFrom(t, Plan(t.rows, port), 0, false) == Outcome(t, true, false)
  {
    var queue := Plan(songs, port);
    RepairRefinesMap(s, queue);
    var t := RepairFrom(s, queue, 0, false).server;
    var again := Plan(t.rows, port);
    forall k | 0 <= k < |queue| ensures !Rewrites(again[k]) {
      assert RowRewritten(t.rows[k], queue[k], s.nextId);
      if Rewrites(queue[k]) {
        RewrittenOnce(queue[k].file, port);
      }
    }
    NothingToDo(t, again, 0);
  }

  // ---- failed commands --------------------------------------------------------------------

  /** How many of the first `n` rows MPD fails to delete. */
  function Stuck(stuck: set<nat>, queue: seq<Row>, n: nat): nat
    requires n <= |queue|
  {
    if n == 0 then 0
    else Stuck(stuck, queue, n - 1) + if Rewrites(queue[n - 1]) && queue[n - 1].id in stuck then 1 else 0
  }

  lemma {:induction false} StuckIff(stuck: set<nat>, queue: seq<Row>, n: nat)
    requires n <= |queue|
    ensures Stuck(stuck, queue, n) == 0
       <==> forall k :: 0 <= k < n && Rewrites(queue[k]) ==> queue[k].id !in stuck
  {
    if n > 0 {
      StuckIff(stuck, queue, n - 1);
    }
  }

  /** The first row MPD refuses to add, or the length of the queue. */
  function FirstRefused(refused: set<string>, queue: seq<Row>, i: nat): (k: nat)
    requires i <= |queue|
    ensures i <= k <= |queue| && forall j :: i <= j < k ==> Agreeable(refused, queue[j])
    ensures k < |queue| ==> !Agreeable(refused, queue[k])
    decreases |queue| - i
  {
    if i == |queue| || !Agreeable(refused, queue[i]) then i else FirstRefused(refused, queue, i + 1)
  }

  /** A row added by this repair. */
  ghost predicate HasNew(rows: seq<Song>, file: string, base: nat) {
    exists song :: song in rows && song.file == file && song.id >= base
  }

  ghost predicate Orderly(s: Server, queue: seq<Row>, base: nat) {
    UniqueIds(s.rows) && Below(s.rows, s.nextId) && DistinctBelow(queue, base) && base <= s.nextId
  }

  /** Row `j` of the snapshot is still in the queue after the first `i` were repaired. */
  predicate Stays(stuck: set<nat>, queue: seq<Row>, i: nat, j: nat)
    requires j < |queue|
  {
    j >= i || !Rewrites(queue[j]) || queue[j].id in stuck
  }

  /** What is in the queue after the first `i` rows, with deletions failing at will. */
  ghost predicate Contents(s: Server, queue: seq<Row>, i: nat, base: nat)
    requires i <= |queue|
  {
    && |s.rows| == |queue| + Stuck(s.stuck, queue, i)
    && (forall j :: 0 <= j < |queue| ==> (queue[j].Old() in s.rows <==> Stays(s.stuck, queue, i, j)))
    && forall j :: 0 <= j < i && Rewrites(queue[j]) ==> HasNew(s.rows, NewFile(queue[j]), base)
  }

  lemma DeleteSong(s: Server, song: Song)
    requires UniqueIds(s.rows) && Below(s.rows, s.nextId) && song in s.rows
    ensures var t := AfterDelete(s, song.id);
      && |t.rows| == |s.rows| - (if song.id in s.stuck then 0 else 1)
      && UniqueIds(t.rows) && Below(t.rows, s.nextId)
      && forall other :: other in t.rows <==> other in s.rows && (other != song || song.id in s.stuck)
  {
    var p :| 0 <= p < |s.rows| && s.rows[p] == song;
    WithoutAt(s.rows, p);
    RemoveAt(s.rows, p, s.nextId);
  }

  lemma RemoveAt(rows: seq<Song>, p: nat, bound: nat)
    requires p < |rows| && UniqueIds(rows) && Below(rows, bound)
    ensures var left := rows[..p] + rows[p + 1..];
      && UniqueIds(left) && Below(left, bound)
      && forall other :: other in left <==> other in rows && other != rows[p]
  {
    var left := rows[..p] + rows[p + 1..];
    assert forall k :: 0 <= k < |left| ==> left[k] == rows[if k < p then k else k + 1];
    forall other ensures other in left <==> other in rows && other != rows[p] {
      if other in rows && other != rows[p] {
        var q :| 0 <= q < |rows| && rows[q] == other;
        assert left[if q < p then q else q - 1] == other;
      }
    }
  }

  lemma AddSong(s: Server, file: string, at: nat)
    requires Accepts(s, file, at) && UniqueIds(s.rows) && Below(s.rows, s.nextId)
    ensures var t := AfterAdd(s, file, at);
      && |t.rows| == |s.rows| + 1 && UniqueIds(t.rows) && Below(t.rows, t.nextId)
      && forall other :: other in t.rows <==> other in s.rows || other == Song(s.nextId, file)
  {
    Inserted(s.rows, at, Song(s.nextId, file));
  }

  lemma Inserted(rows: seq<Song>, at: nat, song: Song)
    requires at <= |rows|
    ensures forall other :: other in rows[..at] + [song] + rows[at..] <==> other in rows || other == song
  {
    var now := rows[..at] + [song] + rows[at..];
    assert now[at] == song;
    forall other ensures other in now <==> other in rows || other == song {
      if other in rows {
        var q :| 0 <= q < |rows| && rows[q] == other;
        assert now[if q < at then q else q + 1] == other;
      }
    }
  }

  /** What is in the queue between the deletion and the addition of row `i`. */
  ghost predicate Between(t: Server, queue: seq<Row>, i: nat, base: nat)
    requires i < |queue|
  {
    && |t.rows| == |queue| + Stuck(t.stuck, queue, i) - (if queue[i].id in t.stuck then 0 else 1)
    && (forall j :: 0 <= j < |queue| ==> (queue[j].Old() in t.rows <==> Stays(t.stuck, queue, i + 1, j)))
    && forall j :: 0 <= j < i && Rewrites(queue[j]) ==> HasNew(t.rows, NewFile(queue[j]), base)
  }

  lemma DeletedContents(s: Server, queue: seq<Row>, i: nat, base: nat)
    requires i < |queue| && Rewrites(queue[i]) && Orderly(s, queue, base) && Contents(s, queue, i, base)
    ensures var t := AfterDelete(s, queue[i].id); Orderly(t, queue, base) && Between(t, queue, i, base)
  {
    var t := AfterDelete(s, queue[i].id);
    assert Stays(s.stuck, queue, i, i);
    DeleteSong(s, queue[i].Old());
    forall j | 0 <= j < |queue| ensures queue[j].Old() in t.rows <==> Stays(s.stuck, queue, i + 1, j) {
      assert j != i ==> queue[j].id != queue[i].id;
    }
    forall j | 0 <= j < i && Rewrites(queue[j]) ensures HasNew(t.rows, NewFile(queue[j]), base) {
      var song :| song in s.rows && song.file == NewFile(queue[j]) && song.id >= base;
      assert song in t.rows;
    }
  }

  lemma AddedNew(d: Server, t: Server, queue: seq<Row>, i: nat, base: nat, file: string)
    requires i < |queue| && Between(d, queue, i, base) && base <= d.nextId && file == NewFile(queue[i])
    requires forall song :: song in d.rows || song == Song(d.nextId, file) ==> song in t.rows
    ensures forall j :: 0 <= j < i + 1 && Rewrites(queue[j]) ==> HasNew(t.rows, NewFile(queue[j]), base)
  {
    assert Song(d.nextId, file) in t.rows;
    forall j | 0 <= j < i && Rewrites(queue[j]) ensures HasNew(t.rows, NewFile(queue[j]), base) {
      var song :| song in d.rows && song.file == NewFile(queue[j]) && song.id >= base;
      assert song in t.rows;
    }
  }

  lemma AddedContents(d: Server, queue: seq<Row>, i: nat, base: nat, file: string)
    requires i < |queue| && Rewrites(queue[i]) && Orderly(d, queue, base) && Between(d, queue, i, base)
    requires file == NewFile(queue[i]) && Accepts(d, file, i)
    ensures Orderly(AfterAdd(d, file, i), queue, base) && Contents(AfterAdd(d, file, i), queue, i + 1, base)
  {
    var t := AfterAdd(d, file, i);
    AddSong(d, file, i);
    AddedNew(d, t, queue, i, base, file);
    forall j | 0 <= j < |queue| ensures queue[j].Old() in t.rows <==> queue[j].Old() in d.rows {
      assert queue[j].id < d.nextId;
    }
  }

  lemma RowContents(s: Server, queue: seq<Row>, i: nat, base: nat)
    requires i < |queue| && Rewrites(queue[i]) && Orderly(s, queue, base) && Contents(s, queue, i, base)
    requires Agreeable(s.refused, queue[i])
    ensures Accepts(AfterDelete(s, queue[i].id), NewFile(queue[i]), i)
    ensures var t := AfterRow(s, queue[i], i);
      && Orderly(t, queue, base) && Contents(t, queue, i + 1, base)
      && t.stuck == s.stuck && t.refused == s.refused
  {
    DeletedContents(s, queue, i, base);
    AddedContents(AfterDelete(s, queue[i].id), queue, i, base, NewFile(queue[i]));
  }

  /** The whole outcome, whatever deletions and additions fail: additions up to the first refused row `k`,
      which was deleted if that worked; every other row as it was. */
  ghost predicate Outcomes(o: Outcome, stuck: set<nat>, queue: seq<Row>, k: nat, base: nat)
    requires k <= |queue|
  {
    && (o.ok <==> k == |queue|)
    && |o.server.rows| == |queue| + Stuck(stuck, queue, k)
                          - (if k < |queue| && queue[k].id !in stuck then 1 else 0)
    && (forall j :: 0 <= j < |queue| ==>
          (queue[j].Old() in o.server.rows <==> Stays(stuck, queue, if k < |queue| then k + 1 else k, j)))
    && forall j :: 0 <= j < k && Rewrites(queue[j]) ==>
         HasNew(o.server.rows, NewFile(queue[j]), base)
  }

  lemma RefusedNow(s: Server, queue: seq<Row>, i: nat, base: nat, changed: bool)
    requires i < |queue| && Orderly(s, queue, base) && Contents(s, queue, i, base)
    requires !Agreeable(s.refused, queue[i])
    ensures Outcomes(RepairFrom(s, queue, i, changed), s.stuck, queue, i, base)
  {
    DeletedContents(s, queue, i, base);
  }

  lemma KeptContents(s: Server, queue: seq<Row>, i: nat, base: nat)
    requires i < |queue| && !Rewrites(queue[i]) && Contents(s, queue, i, base)
    ensures Contents(s, queue, i + 1, base)
  {
  }

  lemma AllSeen(s: Server, queue: seq<Row>, base: nat, changed: bool)
    requires Contents(s, queue, |queue|, base)
    ensures Outcomes(RepairFrom(s, queue, |queue|, changed), s.stuck, queue, |queue|, base)
  {
  }

  lemma {:induction false} RepairOutcomes(
      s: Server, queue: seq<Row>, i: nat, base: nat, changed: bool)
    requires i <= |queue| && Orderly(s, queue, base) && Contents(s, queue, i, base)
    ensures Outcomes(RepairFrom(s, queue, i, changed), s.stuck, queue,
                     FirstRefused(s.refused, queue, i), base)
    decreases |queue| - i
  {
    if i < |queue| {
      if !Agreeable(s.refused, queue[i]) {
        RefusedNow(s, queue, i, base, changed);
      } else if Rewrites(queue[i]) {
        RowContents(s, queue, i, base);
        GoesOn(s, queue, i, changed);
        RepairOutcomes(AfterRow(s, queue[i], i), queue, i + 1, base, true);
      } else {
        KeptContents(s, queue, i, base);
        GoesOn(s, queue, i, changed);
        RepairOutcomes(s, queue, i + 1, base, changed);
      }
    } else {
      AllSeen(s, queue, base, changed);
    }
  }

  lemma GoesOn(s: Server, queue: seq<Row>, i: nat, changed: bool)
    requires i < |queue| && Agreeable(s.refused, queue[i])
    requires Rewrites(queue[i]) ==> Accepts(AfterDelete(s, queue[i].id), NewFile(queue[i]), i)
    ensures FirstRefused(s.refused, queue, i) == FirstRefused(s.refused, queue, i + 1)
    ensures RepairFrom(s, queue, i, changed)
         == if Rewrites(queue[i]) then RepairFrom(AfterRow(s, queue[i], i), queue, i + 1, true)
            else RepairFrom(s, queue, i + 1, changed)
  {
  }

  ghost predicate LostAt(o: Outcome, queue: seq<Row>, k: nat, base: nat)
    requires k < |queue|
  {
    && !o.ok && |o.server.rows| == |queue| - 1
    && RewrittenTo(o.server.rows, queue, k, base)
    && o.server.rows[k..] == Songs(queue)[k + 1..]
  }

  lemma LostNow(s: Server, queue: seq<Row>, base: nat, changed: bool, k: nat)
    requires Halfway(s, queue, k, base) && NoneStuck(s.stuck, queue)
    requires k < |queue| && !Agreeable(s.refused, queue[k])
    ensures LostAt(RepairFrom(s, queue, k, changed), queue, k, base)
  {
    WithoutAt(s.rows, k);
    var rows := s.rows[..k] + s.rows[k + 1..];
    assert rows[k..] == s.rows[k + 1..] == Songs(queue)[k + 1..];
  }

  /** When only additions fail, the order is kept as well: the rows before the first refused one are
      rewritten in place, that one is gone, the others follow as they were. */
  lemma {:induction false} RefusedRowIsLost(s: Server, queue: seq<Row>, i: nat, base: nat, changed: bool)
    requires Halfway(s, queue, i, base) && NoneStuck(s.stuck, queue) && FirstRefused(s.refused, queue, i) < |queue|
    ensures LostAt(RepairFrom(s, queue, i, changed), queue, FirstRefused(s.refused, queue, i), base)
    decreases |queue| - i
  {
    if !Agreeable(s.refused, queue[i]) {
      LostNow(s, queue, base, changed, i);
    } else if Rewrites(queue[i]) {
      HalfwayStep(s, queue, i, base, changed);
      RefusedRowIsLost(AfterRow(s, queue[i], i), queue, i + 1, base, true);
    } else {
      RefusedRowIsLost(s, queue, i + 1, base, changed);
    }
  }

  /** From the live queue: success is reported if and only if no addition was refused. A row MPD failed to
      delete stays in the queue with its rewritten copy, a refused row is lost unless it was also stuck. */
  lemma RepairWithFailures(s: Server, queue: seq<Row>)
    requires Fresh(s, queue)
    ensures Outcomes(RepairFrom(s, queue, 0, false), s.stuck, queue,
                     FirstRefused(s.refused, queue, 0), s.nextId)
  {
    FreshIds(s, queue);
    forall j | 0 <= j < |queue| ensures queue[j].Old() in s.rows {
      assert s.rows[j] == queue[j].Old();
    }
    RepairOutcomes(s, queue, 0, s.nextId, false);
  }

  ghost predicate AnyRewrites(queue: seq<Row>, i: nat, k: nat)
    requires k <= |queue|
  {
    exists j :: i <= j < k && Rewrites(queue[j])
  }

  lemma FirstRewrites(queue: seq<Row>, i: nat, k: nat)
    requires i < k <= |queue|
    ensures AnyRewrites(queue, i, k) <==> Rewrites(queue[i]) || AnyRewrites(queue, i + 1, k)
  {
    if Rewrites(queue[i]) {
      assert AnyRewrites(queue, i, k);
    }
  }

  /** The file of row `i` is refused, or there is no row `i`. */
  lemma StopsHere(s: Server, queue: seq<Row>, i: nat, changed: bool)
    requires i <= |queue| && (i < |queue| ==> !Agreeable(s.refused, queue[i]))
    ensures RepairFrom(s, queue, i, changed).changed == changed && FirstRefused(s.refused, queue, i) == i
  {
  }

  lemma {:induction false} ChangesFrom(s: Server, queue: seq<Row>, i: nat, base: nat, changed: bool)
    requires i <= |queue| && Orderly(s, queue, base) && Contents(s, queue, i, base)
    ensures RepairFrom(s, queue, i, changed).changed
       <==> changed || AnyRewrites(queue, i, FirstRefused(s.refused, queue, i))
    decreases |queue| - i
  {
    if i == |queue| || !Agreeable(s.refused, queue[i]) {
      StopsHere(s, queue, i, changed);
    } else {
      if Rewrites(queue[i]) {
        RowContents(s, queue, i, base);
        ChangesFrom(AfterRow(s, queue[i], i), queue, i + 1, base, true);
      } else {
        KeptContents(s, queue, i, base);
        ChangesFrom(s, queue, i + 1, base, changed);
      }
      GoesOn(s, queue, i, changed);
      FirstRewrites(queue, i, FirstRefused(s.refused, queue, i + 1));
    }
  }

  /** The repair says that it changed the queue if and only if it put a rewritten row in. */
  lemma ChangedIff(s: Server, queue: seq<Row>)
    requires Fresh(s, queue)
    ensures RepairFrom(s, queue, 0, false).changed
       <==> AnyRewrites(queue, 0, FirstRefused(s.refused, queue, 0))
  {
    FreshIds(s, queue);
    forall j | 0 <= j < |queue| ensures queue[j].Old() in s.rows {
      assert s.rows[j] == queue[j].Old();
    }
    ChangesFrom(s, queue, 0, s.nextId, false);
  }

  // ---- the order that is left -------------------------------------------------------------

  /** The rows that were there before the repair, in order. */
  function Olds(rows: seq<Song>, base: nat): seq<Song> {
    if rows == [] then []
    else (if rows[0].id < base then [rows[0]] else []) + Olds(rows[1..], base)
  }

  /** Of the first `n` rows, those that are not to be rewritten and those MPD fails to delete. */
  function Remaining(stuck: set<nat>, queue: seq<Row>, n: nat): seq<Song>
    requires n <= |queue|
  {
    if n == 0 then []
    else
      Remaining(stuck, queue, n - 1)
      + if !Rewrites(queue[n - 1]) || queue[n - 1].id in stuck then [queue[n - 1].Old()] else []
  }

  lemma {:induction false} OldsConcat(a: seq<Song>, b: seq<Song>, base: nat)
    ensures Olds(a + b, base) == Olds(a, base) + Olds(b, base)
    decreases |a|
  {
    if a == [] {
      assert a + b == b;
    } else {
      assert (a + b)[1..] == a[1..] + b;
      OldsConcat(a[1..], b, base);
    }
  }

  lemma {:induction false} OldsOfSongs(songs: seq<Song>, base: nat)
    requires Below(songs, base)
    ensures Olds(songs, base) == songs
  {
    if songs != [] {
      assert songs[0].id < base && forall i :: 0 <= i < |songs[1..]| ==> songs[1..][i] == songs[i + 1];
      OldsOfSongs(songs[1..], base);
    }
  }

  /** Every rewritten row's copy stands where the row stood. */
  ghost predicate CopiesInPlace(rows: seq<Song>, queue: seq<Row>, n: nat, base: nat)
    requires n <= |queue| && n <= |rows|
  {
    forall j :: 0 <= j < n && Rewrites(queue[j]) ==> rows[j].file == NewFile(queue[j]) && rows[j].id >= base
  }

  /** The queue after `i` rows: copies in place, the rows not yet seen at the end, and before them, around the
      copies, what remains of the rows seen. */
  ghost predicate Arranged(s: Server, queue: seq<Row>, i: nat, base: nat) {
    && i <= |queue| && Orderly(s, queue, base)
    && |s.rows| == |queue| + Stuck(s.stuck, queue, i)
    && s.rows[i + Stuck(s.stuck, queue, i)..] == Songs(queue)[i..]
    && CopiesInPlace(s.rows, queue, i, base)
    && Olds(s.rows[..i + Stuck(s.stuck, queue, i)], base) == Remaining(s.stuck, queue, i)
  }

  lemma TailFirst(rows: seq<Song>, at: nat, songs: seq<Song>, i: nat)
    requires at <= |rows| && i < |songs| && rows[at..] == songs[i..]
    ensures at < |rows| && rows[at] == songs[i] && rows[at + 1..] == songs[i + 1..]
    ensures rows == rows[..at] + [rows[at]] + rows[at + 1..]
  {
    assert rows[at] == rows[at..][0] == songs[i..][0];
    assert rows[at + 1..] == rows[at..][1..] == songs[i..][1..];
  }

  /** The rows between `front` and `behind`: one of the snapshot, deleted or not. */
  lemma RowDeleted(s: Server, queue: seq<Row>, i: nat, base: nat) returns (front: seq<Song>, kept: seq<Song>)
    requires Arranged(s, queue, i, base) && i < |queue|
    ensures |front| == i + Stuck(s.stuck, queue, i) && front == s.rows[..|front|]
    ensures kept == if queue[i].id in s.stuck then [queue[i].Old()] else []
    ensures AfterDelete(s, queue[i].id).rows == front + kept + Songs(queue)[i + 1..]
  {
    var at := i + Stuck(s.stuck, queue, i);
    front, kept := s.rows[..at], if queue[i].id in s.stuck then [queue[i].Old()] else [];
    TailFirst(s.rows, at, Songs(queue), i);
    if queue[i].id !in s.stuck {
      WithoutAt(s.rows, at);
      assert front + [] == front;
    }
  }

  lemma OneOld(row: Row, base: nat)
    requires row.id < base
    ensures Olds([row.Old()], base) == [row.Old()]
  {
    assert [row.Old()][1..] == [];
  }

  lemma AddedRemaining(front: seq<Song>, kept: seq<Song>, at: nat, copy: Song, base: nat)
    requires at <= |front| && copy.id >= base && Below(kept, base)
    ensures Olds(front[..at] + [copy] + front[at..] + kept, base) == Olds(front, base) + kept
  {
    OldsConcat(front[..at] + [copy] + front[at..], kept, base);
    OldsConcat(front[..at] + [copy], front[at..], base);
    OldsConcat(front[..at], [copy], base);
    OldsConcat(front[..at], front[at..], base);
    assert front[..at] + front[at..] == front;
    assert Olds([copy], base) == [] by {
      assert [copy][1..] == [];
    }
    assert Olds(front[..at], base) + [] == Olds(front[..at], base);
    OldsOfSongs(kept, base);
  }

  lemma RowReplaced(s: Server, queue: seq<Row>, i: nat, base: nat)
    returns (front: seq<Song>, kept: seq<Song>, seen: seq<Song>)
    requires Arranged(s, queue, i, base) && i < |queue| && Accepts(AfterDelete(s, queue[i].id), NewFile(queue[i]), i)
    ensures |front| == i + Stuck(s.stuck, queue, i) && front == s.rows[..|front|]
    ensures kept == if queue[i].id in s.stuck then [queue[i].Old()] else []
    ensures seen == front[..i] + [Song(s.nextId, NewFile(queue[i]))] + front[i..] + kept
    ensures AfterRow(s, queue[i], i).rows == seen + Songs(queue)[i + 1..]
    ensures seen[i] == Song(s.nextId, NewFile(queue[i])) && forall j :: 0 <= j < i ==> seen[j] == s.rows[j]
  {
    var copy := Song(s.nextId, NewFile(queue[i]));
    front, kept := RowDeleted(s, queue, i, base);
    seen := front[..i] + [copy] + front[i..] + kept;
    CopyAdded(front, kept, Songs(queue)[i + 1..], i, copy);
  }

  lemma RewrittenArranged(s: Server, queue: seq<Row>, i: nat, base: nat)
    requires Arranged(s, queue, i, base) && i < |queue| && Rewrites(queue[i])
    requires Accepts(AfterDelete(s, queue[i].id), NewFile(queue[i]), i)
    requires Orderly(AfterRow(s, queue[i], i), queue, base)
    ensures Arranged(AfterRow(s, queue[i], i), queue, i + 1, base)
  {
    var front, kept, seen := RowReplaced(s, queue, i, base);
    AddedRemaining(front, kept, i, Song(s.nextId, NewFile(queue[i])), base);
    ArrangedBehind(AfterRow(s, queue[i], i), queue, i, base, seen, Songs(queue)[i + 1..]);
  }

  lemma ArrangedBehind(t: Server, queue: seq<Row>, i: nat, base: nat, seen: seq<Song>, behind: seq<Song>)
    requires i < |queue| && Rewrites(queue[i]) && Orderly(t, queue, base)
    requires t.rows == seen + behind && behind == Songs(queue)[i + 1..]
    requires |seen| == i + 1 + Stuck(t.stuck, queue, i) + if queue[i].id in t.stuck then 1 else 0
    requires CopiesInPlace(seen, queue, i + 1, base)
    requires Olds(seen, base)
      == Remaining(t.stuck, queue, i) + if queue[i].id in t.stuck then [queue[i].Old()] else []
    ensures Arranged(t, queue, i + 1, base)
  {
    assert t.rows[..|seen|] == seen && t.rows[|seen|..] == behind;
  }

  lemma CopyAdded(front: seq<Song>, kept: seq<Song>, behind: seq<Song>, at: nat, copy: Song)
    requires at <= |front|
    ensures var seen, rows := front[..at] + [copy] + front[at..] + kept, front + kept + behind;
      && rows[..at] + [copy] + rows[at..] == seen + behind
      && (seen + behind)[..|seen|] == seen && (seen + behind)[|seen|..] == behind && seen[at] == copy
      && forall j :: 0 <= j < at ==> seen[j] == front[j]
  {
  }

  lemma UnchangedArranged(s: Server, queue: seq<Row>, i: nat, base: nat)
    requires Arranged(s, queue, i, base) && i < |queue| && !Rewrites(queue[i])
    ensures Arranged(s, queue, i + 1, base)
  {
    var at := i + Stuck(s.stuck, queue, i);
    TailFirst(s.rows, at, Songs(queue), i);
    assert s.rows[..at + 1] == s.rows[..at] + [s.rows[at]];
    OldsConcat(s.rows[..at], [s.rows[at]], base);
    OneOld(queue[i], base);
  }

  /** The queue a repair leaves that stopped at row `k`: the copies of the rows before it in their places, and
      around them, in their old order, the rows that were not to be rewritten, those MPD failed to delete, and
      those behind `k`. So a row that is not deleted pushes it and the later ones back, each into the next place
      that no copy takes. */
  ghost predicate Ordered(rows: seq<Song>, stuck: set<nat>, queue: seq<Row>, k: nat, base: nat)
    requires k <= |queue|
  {
    && k <= |rows| && CopiesInPlace(rows, queue, k, base)
    && Olds(rows, base) == Remaining(stuck, queue, k)
       + if k == |queue| then []
         else (if queue[k].id in stuck then [queue[k].Old()] else []) + Songs(queue)[k + 1..]
  }

  lemma SongsBelow(queue: seq<Row>, base: nat, i: nat)
    requires DistinctBelow(queue, base) && i <= |queue|
    ensures Below(Songs(queue)[i..], base)
  {
  }

  lemma StoppedOrdered(s: Server, queue: seq<Row>, i: nat, base: nat)
    requires Arranged(s, queue, i, base) && i < |queue|
    ensures Ordered(AfterDelete(s, queue[i].id).rows, s.stuck, queue, i, base)
  {
    var front, kept := RowDeleted(s, queue, i, base);
    var rows, behind := AfterDelete(s, queue[i].id).rows, Songs(queue)[i + 1..];
    SongsBelow(queue, base, i + 1);
    OldsBehind(front, kept, behind, base);
    assert CopiesInPlace(rows, queue, i, base) by {
      assert forall j :: 0 <= j < i ==> rows[j] == front[j] == s.rows[j];
    }
  }

  lemma OldsBehind(front: seq<Song>, kept: seq<Song>, behind: seq<Song>, base: nat)
    requires Below(kept, base) && Below(behind, base)
    ensures Olds(front + kept + behind, base) == Olds(front, base) + (kept + behind)
  {
    Assoc(front, kept, behind);
    OldsConcat(front, kept + behind, base);
    OldsOfSongs(kept + behind, base);
  }

  lemma Assoc(a: seq<Song>, b: seq<Song>, c: seq<Song>)
    ensures a + b + c == a + (b + c)
  {
  }

  lemma FinishedOrdered(s: Server, queue: seq<Row>, base: nat)
    requires Arranged(s, queue, |queue|, base)
    ensures Ordered(s.rows, s.stuck, queue, |queue|, base)
  {
    var at := |queue| + Stuck(s.stuck, queue, |queue|);
    assert s.rows[..at] == s.rows;
    assert Remaining(s.stuck, queue, |queue|) + [] == Remaining(s.stuck, queue, |queue|);
  }

  lemma {:induction false} RepairOrders(s: Server, queue: seq<Row>, i: nat, base: nat, changed: bool)
    requires Arranged(s, queue, i, base) && Contents(s, queue, i, base)
    ensures Ordered(RepairFrom(s, queue, i, changed).server.rows, s.stuck, queue,
                    FirstRefused(s.refused, queue, i), base)
    decreases |queue| - i
  {
    if i == |queue| {
      FinishedOrdered(s, queue, base);
    } else if !Agreeable(s.refused, queue[i]) {
      StoppedOrdered(s, queue, i, base);
    } else if Rewrites(queue[i]) {
      RowContents(s, queue, i, base);
      RewrittenArranged(s, queue, i, base);
      GoesOn(s, queue, i, changed);
      RepairOrders(AfterRow(s, queue[i], i), queue, i + 1, base, true);
    } else {
      UnchangedArranged(s, queue, i, base);
      KeptContents(s, queue, i, base);
      GoesOn(s, queue, i, changed);
      RepairOrders(s, queue, i + 1, base, changed);
    }
  }

  /** Whatever deletions and additions fail, the copies stand in place and the old rows that are left keep
      their order around them. */
  lemma RepairKeepsOrder(s: Server, queue: seq<Row>)
    requires Fresh(s, queue)
    ensures Ordered(RepairFrom(s, queue, 0, false).server.rows, s.stuck, queue,
                    FirstRefused(s.refused, queue, 0), s.nextId)
  {
    FreshIds(s, queue);
    forall j | 0 <= j < |queue| ensures queue[j].Old() in s.rows {
      assert s.rows[j] == queue[j].Old();
    }
    assert s.rows[..0] == [];
    RepairOrders(s, queue, 0, s.nextId, false);
  }

  /** The first row is not deleted: the unchanged row behind it and the last copy change places. */
  lemma StuckRowReorders()
    ensures var queue := [Row(0, "a", Some("A")), Row(1, "u", None), Row(2, "b", Some("B"))];
      RepairFrom(Server(Songs(queue), 3, {0}, {}), queue, 0, false).server.rows
      == [Song(3, "A"), Song(0, "a"), Song(4, "B"), Song(1, "u")]
  {
    var queue := [Row(0, "a", Some("A")), Row(1, "u", None), Row(2, "b", Some("B"))];
    var s := Server(Songs(queue), 3, {0}, {});
    var t := AfterRow(s, queue[0], 0);
    assert t.rows == [Song(3, "A"), Song(0, "a"), Song(1, "u"), Song(2, "b")];
    GoesOn(s, queue, 0, false);
    GoesOn(t, queue, 1, true);
    WithoutAt(t.rows, 3);
    assert AfterDelete(t, 2).rows == [Song(3, "A"), Song(0, "a"), Song(1, "u")];
    GoesOn(t, queue, 2, true);
  }

  /** The repair reports success and leaves the rewrite of the old queue if and only if MPD deleted and added
      every row it was told to. */
  lemma RepairedIff(s: Server, queue: seq<Row>)
    requires Fresh(s, queue)
    ensures var o := RepairFrom(s, queue, 0, false);
      && (o.ok <==> NoneRefused(s.refused, queue))
      && ((o.ok && |o.server.rows| == |queue| && RewrittenTo(o.server.rows, queue, |queue|, s.nextId))
          <==> NoneStuck(s.stuck, queue) && NoneRefused(s.refused, queue))
  {
    RepairWithFailures(s, queue);
    StuckIff(s.stuck, queue, |queue|);
    if NoneStuck(s.stuck, queue) && NoneRefused(s.refused, queue) {
      RepairRefinesMap(s, queue);
    }
  }
}
