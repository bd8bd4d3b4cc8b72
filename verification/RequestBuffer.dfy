/** The buffer of the request thread and its rule for dropping superseded queries
    (src/core/client.rs, src/shared/mpd_query.rs). */
module RequestBuffer {
  import opened Common

  /** `tag` stands for the callback, which tells requests apart. */
  datatype Request =
    | Query(id: string, replaceId: Option<string>, target: Option<string>, tag: nat)
    | QuerySync(tag: nat)
    | Command(tag: nat)

  datatype Key = Key(id: string, replaceId: string, target: Option<string>)

  function KeyOf(r: Request): Option<Key> {
    if r.Query? && r.replaceId.Some? then Some(Key(r.id, r.replaceId.value, r.target)) else None
  }

  predicate ShouldBeSkipped(q: Request, other: Request)
    requires q.Query? && other.Query?
  {
    q.replaceId.Some? && other.replaceId.Some?
    && q.id == other.id && q.replaceId.value == other.replaceId.value && q.target == other.target
  }

  predicate Supersedes(r: Request, other: Request) {
    r.Query? && other.Query? && ShouldBeSkipped(r, other)
  }

  predicate ShouldSkip(buffer: seq<Request>, r: Request) {
    exists other :: other in buffer && Supersedes(r, other)
  }

  // ---- one drain of the buffer ------------------------------------------------------------

  /** The buffer after popping its head and taking in what arrived meanwhile. */
  function After(buffer: seq<Request>, arrivals: seq<seq<Request>>): seq<Request>
    requires buffer != []
  {
    buffer[1..] + if arrivals == [] then [] else arrivals[0]
  }

  function Rest(arrivals: seq<seq<Request>>): (r: seq<seq<Request>>)
    ensures |r| < |arrivals| || (arrivals == [] && r == [])
  {
    if arrivals == [] then [] else arrivals[1..]
  }

  /** The requests sent to MPD until the buffer is empty. `arrivals[i]` came in before the check of the
      (i+1)st popped request; later nothing comes. */
  function Executed(buffer: seq<Request>, arrivals: seq<seq<Request>>): seq<Request>
    decreases |arrivals|, |buffer|
  {
    if buffer == [] then []
    else
      var next := After(buffer, arrivals);
      var later := Executed(next, Rest(arrivals));
      if ShouldSkip(next, buffer[0]) then later else [buffer[0]] + later
  }

  /** The requests taken out of the buffer, executed or not. */
  function Received(buffer: seq<Request>, arrivals: seq<seq<Request>>): seq<Request>
    decreases |arrivals|, |buffer|
  {
    if buffer == [] then [] else [buffer[0]] + Received(After(buffer, arrivals), Rest(arrivals))
  }

  method ShouldSkipRequest(buffer: seq<Request>, r: Request) returns (skip: bool)
    ensures skip == ShouldSkip(buffer, r)
  {
    for i := 0 to |buffer|
      invariant forall k :: 0 <= k < i ==> !Supersedes(r, buffer[k])
    {
      if Supersedes(r, buffer[i]) {
        return true;
      }
    }
    return false;
  }

  method Drain(msg: Request, incoming: seq<seq<Request>>) returns (executed: seq<Request>)
    ensures executed == Executed([msg], incoming)
  {
    var buffer, arrivals := [msg], incoming;
    executed := [];
    while buffer != []
      invariant executed + Executed(buffer, arrivals) == Executed([msg], incoming)
      decreases |arrivals|, |buffer|
    {
      ghost var was := buffer;
      var request := buffer[0];
      buffer := buffer[1..];
      var more := if arrivals == [] then [] else arrivals[0];
      ghost var all := more;
      while more != []
        invariant buffer + more == was[1..] + all
        decreases |more|
      {
        buffer := buffer + [more[0]];
        more := more[1..];
      }
      assert buffer == After(was, arrivals);
      arrivals := Rest(arrivals);
      var skip := ShouldSkipRequest(buffer, request);
      if !skip {
        executed := executed + [request];
      }
    }
  }

  // ---- nothing that was received is lost, except superseded queries -----------------------

  function Flat(arrivals: seq<seq<Request>>): seq<Request> {
    if arrivals == [] then [] else arrivals[0] + Flat(arrivals[1..])
  }

  lemma PopAndTakeIn(buffer: seq<Request>, arrivals: seq<seq<Request>>)
    requires buffer != []
    ensures buffer <= [buffer[0]] + After(buffer, arrivals)
    ensures buffer + Flat(arrivals) == [buffer[0]] + (After(buffer, arrivals) + Flat(Rest(arrivals)))
  {
  }

  /** Requests are handled in the order they came, and the buffer is emptied. */
  lemma {:induction false} ReceivedInOrder(buffer: seq<Request>, arrivals: seq<seq<Request>>)
    ensures buffer <= Received(buffer, arrivals) <= buffer + Flat(arrivals)
    decreases |arrivals|, |buffer|
  {
    if buffer != [] {
      var next := After(buffer, arrivals);
      ReceivedInOrder(next, Rest(arrivals));
      PopAndTakeIn(buffer, arrivals);
    }
  }

  function Min(a: nat, b: nat): nat { if a < b then a else b }

  /** And all are taken in that came before the last check: nothing but what arrives later is left. */
  lemma {:induction false} ReceivedExactly(buffer: seq<Request>, arrivals: seq<seq<Request>>)
    ensures var n := Min(|Received(buffer, arrivals)|, |arrivals|);
      Received(buffer, arrivals) == buffer + Flat(arrivals[..n])
    decreases |arrivals|, |buffer|
  {
    if buffer == [] {
      assert arrivals[..0] == [];
    } else {
      var next, rest := After(buffer, arrivals), Rest(arrivals);
      ReceivedExactly(next, rest);
      var m := Min(|Received(next, rest)|, |rest|);
      PoppedAndTaken(buffer, arrivals, m);
    }
  }

  lemma PoppedAndTaken(buffer: seq<Request>, arrivals: seq<seq<Request>>, m: nat)
    requires buffer != [] && m <= |Rest(arrivals)|
    ensures [buffer[0]] + (After(buffer, arrivals) + Flat(Rest(arrivals)[..m]))
         == buffer + Flat(arrivals[..if arrivals == [] then 0 else m + 1])
  {
    if arrivals != [] {
      assert arrivals[..m + 1][1..] == arrivals[1..][..m];
      assert Flat(arrivals[..m + 1]) == arrivals[0] + Flat(arrivals[1..][..m]);
    }
  }

  /** The requests with key `k`; for `None` the ones no rule can drop. */
  function Only(rs: seq<Request>, k: Option<Key>): seq<Request> {
    if rs == [] then []
    else if KeyOf(rs[0]) == k then [rs[0]] + Only(rs[1..], k)
    else Only(rs[1..], k)
  }

  lemma {:induction false} OnlyCons(r: Request, rs: seq<Request>, k: Option<Key>)
    ensures Only([r] + rs, k) == if KeyOf(r) == k then [r] + Only(rs, k) else Only(rs, k)
  {
  }

  /** Commands, synchronous queries and queries without a replace id are executed exactly once, in
      order, between the others. */
  lemma {:induction false} UnreplaceableExecutedOnce(buffer: seq<Request>, arrivals: seq<seq<Request>>)
    ensures Only(Executed(buffer, arrivals), None) == Only(Received(buffer, arrivals), None)
    decreases |arrivals|, |buffer|
  {
    if buffer != [] {
      var next := After(buffer, arrivals);
      UnreplaceableExecutedOnce(next, Rest(arrivals));
      OnlyCons(buffer[0], Executed(next, Rest(arrivals)), None);
      OnlyCons(buffer[0], Received(next, Rest(arrivals)), None);
    }
  }

  lemma {:induction false} OnlyMember(rs: seq<Request>, k: Option<Key>, r: Request)
    requires r in rs && KeyOf(r) == k
    ensures Only(rs, k) != []
  {
    if rs[0] != r {
      OnlyMember(rs[1..], k, r);
    }
  }

  /** Of the queries that can stand in for each other the newest is executed, and it is executed last. */
  ghost predicate NewestLast(executed: seq<Request>, received: seq<Request>, k: Key) {
    var e, r := Only(executed, Some(k)), Only(received, Some(k));
    (e == [] <==> r == []) && (r != [] ==> e[|e| - 1] == r[|r| - 1])
  }

  lemma SkippedKeepsNewest(r: Request, executed: seq<Request>, received: seq<Request>, k: Key)
    requires NewestLast(executed, received, k)
    requires KeyOf(r) == Some(k) ==> Only(received, Some(k)) != []
    ensures NewestLast(executed, [r] + received, k)
  {
  }

  lemma ExecutedKeepsNewest(r: Request, executed: seq<Request>, received: seq<Request>, k: Key)
    requires NewestLast(executed, received, k)
    ensures NewestLast([r] + executed, [r] + received, k)
  {
  }

  lemma SupersederIsReceived(buffer: seq<Request>, arrivals: seq<seq<Request>>, r: Request)
    requires ShouldSkip(buffer, r)
    ensures Only(Received(buffer, arrivals), KeyOf(r)) != []
  {
    var other :| other in buffer && Supersedes(r, other);
    ReceivedInOrder(buffer, arrivals);
    OnlyMember(Received(buffer, arrivals), KeyOf(r), other);
  }

  /** Whoever was skipped gets a younger answer before the buffer is empty. */
  lemma {:induction false} NewestIsExecutedLast(buffer: seq<Request>, arrivals: seq<seq<Request>>, k: Key)
    ensures NewestLast(Executed(buffer, arrivals), Received(buffer, arrivals), k)
    decreases |arrivals|, |buffer|
  {
    if buffer != [] {
      var next := After(buffer, arrivals);
      var e, r := Executed(next, Rest(arrivals)), Received(next, Rest(arrivals));
      NewestIsExecutedLast(next, Rest(arrivals), k);
      if ShouldSkip(next, buffer[0]) {
        SupersederIsReceived(next, Rest(arrivals), buffer[0]);
        SkippedKeepsNewest(buffer[0], e, r, k);
      } else {
        ExecutedKeepsNewest(buffer[0], e, r, k);
      }
    }
  }

  // ---- exactly what is skipped ------------------------------------------------------------

  /** Whether the i-th received request was executed. */
  function Verdicts(buffer: seq<Request>, arrivals: seq<seq<Request>>): (v: seq<bool>)
    ensures |v| == |Received(buffer, arrivals)|
    decreases |arrivals|, |buffer|
  {
    if buffer == [] then []
    else
      var next := After(buffer, arrivals);
      [!ShouldSkip(next, buffer[0])] + Verdicts(next, Rest(arrivals))
  }

  function Chosen(rs: seq<Request>, v: seq<bool>): seq<Request>
    requires |rs| == |v|
  {
    if rs == [] then []
    else if v[0] then [rs[0]] + Chosen(rs[1..], v[1..])
    else Chosen(rs[1..], v[1..])
  }

  /** How many requests had been received when the i-th was checked. */
  function Known(buffer: seq<Request>, arrivals: seq<seq<Request>>, i: nat): nat
    decreases i
  {
    if buffer == [] then 0
    else if i == 0 then 1 + |After(buffer, arrivals)|
    else 1 + Known(After(buffer, arrivals), Rest(arrivals), i - 1)
  }

  lemma {:induction false} ExecutedAreChosen(buffer: seq<Request>, arrivals: seq<seq<Request>>)
    ensures Executed(buffer, arrivals) == Chosen(Received(buffer, arrivals), Verdicts(buffer, arrivals))
    decreases |arrivals|, |buffer|
  {
    if buffer != [] {
      var next := After(buffer, arrivals);
      ExecutedAreChosen(next, Rest(arrivals));
      var r, v := Received(next, Rest(arrivals)), Verdicts(next, Rest(arrivals));
      assert ([buffer[0]] + r)[1..] == r && ([!ShouldSkip(next, buffer[0])] + v)[1..] == v;
    }
  }

  /** Both are queries that can be replaced, and they ask the same for the same part of the screen. */
  predicate SameQuestion(a: Request, b: Request) {
    && a.Query? && b.Query? && a.replaceId.Some?
    && a.id == b.id && a.replaceId == b.replaceId && a.target == b.target
  }

  lemma SupersedesIff(a: Request, b: Request)
    ensures Supersedes(a, b) <==> SameQuestion(a, b)
    ensures SameQuestion(a, b) <==> KeyOf(a).Some? && KeyOf(a) == KeyOf(b)
  {
  }

  /** Among the first `known` requests one later than the i-th asks the same. */
  ghost predicate Superseded(rs: seq<Request>, i: nat, known: nat)
    requires i < known <= |rs|
  {
    exists j :: i < j < known && SameQuestion(rs[i], rs[j])
  }

  lemma SupersededAmong(r: Request, next: seq<Request>, rs: seq<Request>)
    requires [r] + next <= rs
    ensures Superseded(rs, 0, 1 + |next|) <==> ShouldSkip(next, r)
  {
    assert rs[0] == ([r] + next)[0];
    assert forall j :: 0 < j < 1 + |next| ==> rs[j] == ([r] + next)[j] == next[j - 1];
    forall j | 0 <= j < |next| ensures Supersedes(r, next[j]) <==> SameQuestion(rs[0], rs[j + 1]) {
      SupersedesIff(r, next[j]);
    }
    if ShouldSkip(next, r) {
      var j :| 0 <= j < |next| && Supersedes(r, next[j]);
      assert SameQuestion(rs[0], rs[j + 1]);
    }
    if j :| 0 < j < 1 + |next| && SameQuestion(rs[0], rs[j]) {
      assert Supersedes(r, next[j - 1]);
    }
  }

  lemma SupersededShift(r: Request, rs: seq<Request>, i: nat, known: nat)
    requires i < known <= |rs|
    ensures Superseded([r] + rs, i + 1, known + 1) <==> Superseded(rs, i, known)
  {
    assert forall j :: 0 < j < |rs| + 1 ==> ([r] + rs)[j] == rs[j - 1];
    if j :| i < j < known && SameQuestion(rs[i], rs[j]) {
      assert SameQuestion(([r] + rs)[i + 1], ([r] + rs)[j + 1]);
    }
  }

  lemma {:induction false} FirstSkippedIff(buffer: seq<Request>, arrivals: seq<seq<Request>>)
    requires buffer != []
    ensures 0 < Known(buffer, arrivals, 0) <= |Received(buffer, arrivals)|
    ensures !Verdicts(buffer, arrivals)[0]
       <==> Superseded(Received(buffer, arrivals), 0, Known(buffer, arrivals, 0))
  {
    var next := After(buffer, arrivals);
    ReceivedInOrder(next, Rest(arrivals));
    SupersededAmong(buffer[0], next, [buffer[0]] + Received(next, Rest(arrivals)));
  }

  /** A later request fares as it does in the rest of the drain. */
  lemma {:induction false} LaterRequest(buffer: seq<Request>, arrivals: seq<seq<Request>>, i: nat)
    requires buffer != [] && 0 < i < |Received(buffer, arrivals)|
    ensures var next, rest := After(buffer, arrivals), Rest(arrivals);
      && Received(buffer, arrivals) == [buffer[0]] + Received(next, rest)
      && Verdicts(buffer, arrivals)[i] == Verdicts(next, rest)[i - 1]
      && Known(buffer, arrivals, i) == 1 + Known(next, rest, i - 1)
  {
  }

  /** What `SkippedIff` says of request `i`, of which the drain knew `known` requests when it checked it. */
  ghost predicate SkippedRightly(rs: seq<Request>, executed: bool, i: nat, known: nat)
    requires i < |rs|
  {
    i < known <= |rs| && (!executed <==> Superseded(rs, i, known))
  }

  lemma SkippedBehind(r: Request, rs: seq<Request>, all: seq<Request>, executed: bool, i: nat, known: nat)
    requires 0 < i < |all| && all == [r] + rs && SkippedRightly(rs, executed, i - 1, known)
    ensures SkippedRightly(all, executed, i, 1 + known)
  {
    SupersededShift(r, rs, i - 1, known);
  }

  lemma {:induction false} EachSkippedRightly(buffer: seq<Request>, arrivals: seq<seq<Request>>, i: nat)
    requires i < |Received(buffer, arrivals)|
    ensures SkippedRightly(Received(buffer, arrivals), Verdicts(buffer, arrivals)[i], i, Known(buffer, arrivals, i))
    decreases i
  {
    if i == 0 {
      FirstSkippedIff(buffer, arrivals);
    } else {
      var next, rest := After(buffer, arrivals), Rest(arrivals);
      LaterRequest(buffer, arrivals, i);
      EachSkippedRightly(next, rest, i - 1);
      SkippedBehind(buffer[0], Received(next, rest), Received(buffer, arrivals), Verdicts(buffer, arrivals)[i], i,
                    Known(next, rest, i - 1));
    }
  }

  /** A request is skipped if and only if a query that supersedes it had already come in. */
  lemma {:induction false} SkippedIff(buffer: seq<Request>, arrivals: seq<seq<Request>>, i: nat)
    requires i < |Received(buffer, arrivals)|
    ensures i < Known(buffer, arrivals, i) <= |Received(buffer, arrivals)|
    ensures !Verdicts(buffer, arrivals)[i]
       <==> Superseded(Received(buffer, arrivals), i, Known(buffer, arrivals, i))
  {
    EachSkippedRightly(buffer, arrivals, i);
  }
}
