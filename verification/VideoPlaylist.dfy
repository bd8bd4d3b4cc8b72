/** The persistent video list and the running player's mirror of it (src/core/mpv.rs). */
module VideoPlaylist {
  import opened Common

  /** `extra` stands for duration and start offset, which this part only copies. */
  datatype Entry = Entry(title: string, url: string, original: Option<string>, pending: bool, extra: nat)

  function LookupUrl(e: Entry): string {
    if e.original.Some? && e.original.value != "" then e.original.value else e.url
  }

  predicate Waits(e: Entry, key: string) { e.pending && LookupUrl(e) == key }

  function Resolved(e: Entry): Entry { e.(pending := false) }

  // ---- filling placeholders ---------------------------------------------------------------

  /** The first placeholder of `key`, or the length of the list. */
  function Placeholder(list: seq<Entry>, key: string): (i: nat)
    ensures i <= |list| && (forall k :: 0 <= k < i ==> !Waits(list[k], key))
    ensures i < |list| ==> Waits(list[i], key)
  {
    if list == [] || Waits(list[0], key) then 0 else 1 + Placeholder(list[1..], key)
  }

  function Fill(list: seq<Entry>, e: Entry): seq<Entry> {
    var i := Placeholder(list, LookupUrl(e));
    if i < |list| then list[i := Resolved(e)] else list
  }

  predicate Fills(list: seq<Entry>, e: Entry) { Placeholder(list, LookupUrl(e)) < |list| }

  /** The list after the whole batch. */
  function FillAll(list: seq<Entry>, batch: seq<Entry>): seq<Entry>
    decreases |batch|
  {
    if batch == [] then list else FillAll(Fill(list, batch[0]), batch[1..])
  }

  /** The link an entry stands for: the one it was resolved from, if that is known, and else its own URL. */
  predicate Linked(e: Entry, link: string) {
    if e.original.Some? && e.original != Some("") then e.original == Some(link) else e.url == link
  }

  lemma LinkIff(e: Entry, link: string)
    ensures LookupUrl(e) == link <==> Linked(e, link)
  {
  }

  /** The first row that waits for this link. */
  ghost predicate FirstWaiting(list: seq<Entry>, link: string, i: nat) {
    && i < |list| && list[i].pending && Linked(list[i], link)
    && forall k :: 0 <= k < i ==> !(list[k].pending && Linked(list[k], link))
  }

  /** An entry takes the place of the first row that waits for its link, and waits no more; with no such row it
      changes nothing. */
  lemma FillDoes(list: seq<Entry>, e: Entry, link: string)
    requires Linked(e, link)
    ensures forall i: nat :: FirstWaiting(list, link, i) ==> Fill(list, e) == list[i := e.(pending := false)]
    ensures (forall i: nat :: !FirstWaiting(list, link, i)) ==> Fill(list, e) == list
    ensures Fills(list, e) <==> exists i: nat :: FirstWaiting(list, link, i)
  {
    var at := Placeholder(list, LookupUrl(e));
    forall k | 0 <= k < |list| ensures Waits(list[k], LookupUrl(e)) <==> list[k].pending && Linked(list[k], link) {
      LinkIff(list[k], link);
    }
    if at < |list| {
      assert FirstWaiting(list, link, at);
      forall i: nat | FirstWaiting(list, link, i) ensures i == at {
      }
    }
  }

  /** Which entries of the batch found a placeholder in either list. */
  function Matches(list: seq<Entry>, session: seq<Entry>, batch: seq<Entry>): (m: seq<bool>)
    ensures |m| == |batch|
    decreases |batch|
  {
    if batch == [] then []
    else
      var later := Matches(Fill(list, batch[0]), Fill(session, batch[0]), batch[1..]);
      [Fills(list, batch[0]) || Fills(session, batch[0])] + later
  }

  function Pick(batch: seq<Entry>, m: seq<bool>, which: bool): seq<Entry>
    requires |batch| == |m|
  {
    if batch == [] then []
    else if m[0] == which then [Resolved(batch[0])] + Pick(batch[1..], m[1..], which)
    else Pick(batch[1..], m[1..], which)
  }

  // ---- adding -----------------------------------------------------------------------------

  function WithUrl(entries: seq<Entry>): seq<Entry> {
    if entries == [] then []
    else if entries[|entries| - 1].url == "" then WithUrl(entries[..|entries| - 1])
    else WithUrl(entries[..|entries| - 1]) + [entries[|entries| - 1]]
  }

  function Urls(entries: seq<Entry>): seq<string> {
    if entries == [] then [] else Urls(entries[..|entries| - 1]) + [entries[|entries| - 1].url]
  }

  /** The first row with this URL. */
  function FirstAt(list: seq<Entry>, url: string): Option<nat> {
    if list == [] then None
    else if list[0].url == url then Some(0)
    else
      var rest := FirstAt(list[1..], url);
      if rest.None? then None else Some(rest.value + 1)
  }

  function CurrentIdx(list: seq<Entry>, session: seq<Entry>, active: bool, pos: Option<nat>): Option<nat> {
    var at := if pos.Some? then pos.value else 0;
    if !active || at >= |session| then None else FirstAt(list, session[at].url)
  }

  function Spliced(list: seq<Entry>, entries: seq<Entry>, at: Option<nat>): seq<Entry> {
    if at.Some? && at.value < |list| then list[..at.value + 1] + entries + list[at.value + 1..]
    else list + entries
  }

  /** The entries of a batch that found no placeholder. */
  function Unmatched(list: seq<Entry>, session: seq<Entry>, batch: seq<Entry>): seq<Entry> {
    Pick(batch, Matches(list, session, batch), false)
  }

  /** The list after completing a batch, new entries going in behind row `at`. */
  function Completed(list: seq<Entry>, session: seq<Entry>, batch: seq<Entry>, at: Option<nat>): seq<Entry> {
    Spliced(FillAll(list, batch), WithUrl(Unmatched(list, session, batch)), at)
  }

  lemma {:induction false} FirstAtIs(list: seq<Entry>, url: string)
    ensures var r := FirstAt(list, url);
      && (r.Some? ==> r.value < |list| && list[r.value].url == url)
      && forall k :: 0 <= k < (if r.Some? then r.value else |list|) ==> list[k].url != url
  {
    if list != [] && list[0].url != url {
      FirstAtIs(list[1..], url);
      assert forall k :: 1 <= k < |list| ==> list[k] == list[1..][k - 1];
    }
  }

  /** The current row is the first one with the URL of the entry the player is at. */
  lemma CurrentIff(list: seq<Entry>, session: seq<Entry>, active: bool, pos: Option<nat>, k: nat)
    ensures CurrentIdx(list, session, active, pos) == Some(k) <==>
      var at := if pos.Some? then pos.value else 0;
      && active && at < |session| && k < |list| && list[k].url == session[at].url
      && forall j :: 0 <= j < k ==> list[j].url != session[at].url
  {
    var at := if pos.Some? then pos.value else 0;
    if at < |session| {
      FirstAtIs(list, session[at].url);
    }
  }

  /** Where added entries go: right behind the given row, or at the end; all other rows keep their order. */
  lemma SplicedAt(list: seq<Entry>, entries: seq<Entry>, at: Option<nat>, k: nat)
    ensures var n := if at.Some? && at.value < |list| then at.value + 1 else |list|;
      var r := Spliced(list, entries, at);
      && |r| == |list| + |entries|
      && (k < n ==> r[k] == list[k])
      && (k < |entries| ==> r[n + k] == entries[k])
      && (n <= k < |list| ==> r[|entries| + k] == list[k])
  {
  }

  /** Adding drops the entries without a URL, and nothing else. */
  lemma {:induction false} WithUrlPlus(a: seq<Entry>, b: seq<Entry>)
    ensures WithUrl(a + b) == WithUrl(a) + WithUrl(b)
    decreases |b|
  {
    if b == [] {
      assert a + b == a;
    } else {
      WithUrlPlus(a, b[..|b| - 1]);
      assert (a + b)[..|a + b| - 1] == a + b[..|b| - 1];
    }
  }

  lemma WithUrlOfOne(e: Entry)
    ensures WithUrl([e]) == if e.url == "" then [] else [e]
  {
    assert [e][..0] == [];
  }

  /** The player is told the URLs one by one. */
  lemma {:induction false} UrlsAre(entries: seq<Entry>, i: nat)
    ensures |Urls(entries)| == |entries| && (i < |entries| ==> Urls(entries)[i] == entries[i].url)
  {
    if entries != [] {
      UrlsAre(entries[..|entries| - 1], i);
    }
  }

  /** A batch is parted entry by entry, in order; what comes out waits no more. */
  lemma {:induction false} PickPlus(a: seq<Entry>, m: seq<bool>, b: seq<Entry>, n: seq<bool>, which: bool)
    requires |a| == |m| && |b| == |n|
    ensures Pick(a + b, m + n, which) == Pick(a, m, which) + Pick(b, n, which)
    decreases |a|
  {
    if a == [] {
      assert a + b == b && m + n == n;
    } else {
      PickPlus(a[1..], m[1..], b, n, which);
      assert (a + b)[1..] == a[1..] + b && (m + n)[1..] == m[1..] + n;
    }
  }

  lemma PickOfOne(e: Entry, found: bool, which: bool)
    ensures Pick([e], [found], which) == if found == which then [e.(pending := false)] else []
  {
    assert [e][1..] == [] && [found][1..] == [];
  }

  lemma CurrentInList(list: seq<Entry>, session: seq<Entry>, active: bool, pos: Option<nat>)
    ensures var c := CurrentIdx(list, session, active, pos); c.Some? ==> c.value < |list|
  {
    var at := if pos.Some? then pos.value else 0;
    if at < |session| {
      FirstAtIs(list, session[at].url);
    }
  }

  lemma InsertOne(before: seq<Entry>, entries: seq<Entry>, behind: seq<Entry>, n: nat)
    requires n < |entries|
    ensures var list, at := before + entries[..n] + behind, |before| + n;
      list[..at] + [entries[n]] + list[at..] == before + entries[..n + 1] + behind
  {
  }

  lemma PickFirst(list: seq<Entry>, session: seq<Entry>, batch: seq<Entry>, yes: seq<Entry>, no: seq<Entry>)
    requires batch != []
    ensures var m := Matches(list, session, batch);
      var n := Matches(Fill(list, batch[0]), Fill(session, batch[0]), batch[1..]);
      var here := Fills(list, batch[0]) || Fills(session, batch[0]);
      && yes + Pick(batch, m, true)
         == (if here then yes + [Resolved(batch[0])] else yes) + Pick(batch[1..], n, true)
      && no + Pick(batch, m, false)
         == (if here then no else no + [Resolved(batch[0])]) + Pick(batch[1..], n, false)
  {
  }

  lemma ResolvedFillsTheSame(list: seq<Entry>, e: Entry)
    ensures Fill(list, Resolved(e)) == Fill(list, e) && Fills(list, Resolved(e)) == Fills(list, e)
  {
  }

  lemma NothingAdded(list: seq<Entry>, at: Option<nat>)
    ensures Spliced(list, [], at) == list
  {
  }

  method KeepWithUrl(entries: seq<Entry>) returns (kept: seq<Entry>)
    ensures kept == WithUrl(entries)
  {
    kept := [];
    for i := 0 to |entries|
      invariant kept == WithUrl(entries[..i])
    {
      assert entries[..i + 1][..i] == entries[..i];
      if entries[i].url != "" {
        kept := kept + [entries[i]];
      }
    }
    assert entries[..|entries|] == entries;
  }

  method FindPlaceholder(list: seq<Entry>, key: string) returns (slot: nat)
    ensures slot == Placeholder(list, key)
  {
    slot := 0;
    while slot < |list| && !Waits(list[slot], key)
      invariant slot <= |list| && forall k :: 0 <= k < slot ==> !Waits(list[k], key)
    {
      slot := slot + 1;
    }
  }

  class Videos {
    var list: seq<Entry>
    var session: seq<Entry>
    var active: bool
    var hasSocket: bool
    var position: Option<nat>
    /** The URLs the player was told to append. */
    var loaded: seq<string>

    constructor (list: seq<Entry>, session: seq<Entry>, active: bool, hasSocket: bool, position: Option<nat>)
      ensures this.list == list && this.session == session && this.active == active
      ensures this.hasSocket == hasSocket && this.position == position && loaded == []
    {
      this.list, this.session, this.active := list, session, active;
      this.hasSocket, this.position, this.loaded := hasSocket, position, [];
    }

    function Current(): Option<nat>
      reads this
    {
      CurrentIdx(list, session, active, position)
    }

    method AddToVideoPlaylist(entries: seq<Entry>, afterCurrent: bool)
      modifies this`list, this`session, this`loaded
      ensures list == Spliced(old(list), WithUrl(entries), if afterCurrent then old(Current()) else None)
      ensures active && hasSocket ==>
        session == old(session) + WithUrl(entries) && loaded == old(loaded) + Urls(WithUrl(entries))
      ensures !(active && hasSocket) ==> session == old(session) && loaded == old(loaded)
    {
      var kept := KeepWithUrl(entries);
      if kept == [] {
        return;
      }
      var insertAt := if afterCurrent then Current() else None;
      if insertAt.Some? {
        CurrentInList(list, session, active, position);
        InsertAfter(kept, insertAt.value);
      } else {
        list := list + kept;
      }
      if active && hasSocket {
        for i := 0 to |kept|
          invariant loaded == old(loaded) + Urls(kept[..i])
          modifies this`loaded
        {
          assert kept[..i + 1][..i] == kept[..i];
          loaded := loaded + [kept[i].url];
        }
        assert kept[..|kept|] == kept;
        session := session + kept;
      }
    }

    method InsertAfter(entries: seq<Entry>, at: nat)
      requires at < |list|
      modifies this`list
      ensures list == old(list)[..at + 1] + entries + old(list)[at + 1..]
    {
      ghost var before, behind := list[..at + 1], list[at + 1..];
      assert list == before + entries[..0] + behind;
      for offset := 0 to |entries|
        invariant |list| == |before| + offset + |behind|
        invariant list == before + entries[..offset] + behind
      {
        InsertOne(before, entries, behind, offset);
        list := list[..at + 1 + offset] + [entries[offset]] + list[at + 1 + offset..];
      }
      assert entries[..|entries|] == entries;
    }

    /** Puts the entry in place of its first placeholder, in both lists. */
    method FillOne(entry: Entry) returns (filled: bool)
      requires !entry.pending
      modifies this`list, this`session
      ensures list == Fill(old(list), entry) && session == Fill(old(session), entry)
      ensures filled == (Fills(old(list), entry) || Fills(old(session), entry))
    {
      var key := LookupUrl(entry);
      filled := false;
      var slot := FindPlaceholder(list, key);
      if slot < |list| {
        list := list[slot := entry];
        filled := true;
      }
      slot := FindPlaceholder(session, key);
      if slot < |session| {
        session := session[slot := entry];
        filled := true;
      }
    }

    method FillRows(entries: seq<Entry>) returns (resolved: seq<Entry>, unmatched: seq<Entry>)
      modifies this`list, this`session
      ensures list == FillAll(old(list), entries) && session == FillAll(old(session), entries)
      ensures var m := Matches(old(list), old(session), entries);
        resolved == Pick(entries, m, true) && unmatched == Pick(entries, m, false)
    {
      resolved, unmatched := [], [];
      var rest := entries;
      while rest != []
        invariant FillAll(list, rest) == FillAll(old(list), entries)
        invariant FillAll(session, rest) == FillAll(old(session), entries)
        invariant resolved + Pick(rest, Matches(list, session, rest), true)
               == Pick(entries, Matches(old(list), old(session), entries), true)
        invariant unmatched + Pick(rest, Matches(list, session, rest), false)
               == Pick(entries, Matches(old(list), old(session), entries), false)
        decreases |rest|
      {
        PickFirst(list, session, rest, resolved, unmatched);
        var entry := Resolved(rest[0]);
        ResolvedFillsTheSame(list, rest[0]);
        ResolvedFillsTheSame(session, rest[0]);
        var filled := FillOne(entry);
        if filled {
          resolved := resolved + [entry];
        } else {
          unmatched := unmatched + [entry];
        }
        rest := rest[1..];
      }
    }

    /** Which entries were filled in, and how many had no placeholder. */
    method CompleteVideoPlaylist(entries: seq<Entry>, afterCurrent: bool)
      returns (resolved: seq<Entry>, appended: nat)
      modifies this`list, this`session, this`loaded
      ensures appended == |Unmatched(old(list), old(session), entries)| && |resolved| + appended == |entries|
      ensures list == Completed(old(list), old(session), entries, if !afterCurrent then None
        else CurrentIdx(FillAll(old(list), entries), FillAll(old(session), entries), active, position))
      ensures var m := Matches(old(list), old(session), entries);
        && resolved == Pick(entries, m, true)
        && Added(FillAll(old(list), entries), FillAll(old(session), entries), old(loaded),
                 Pick(entries, m, false), afterCurrent)
    {
      var unmatched;
      resolved, unmatched := FillRows(entries);
      appended := |unmatched|;
      ResolvedPlusAppended(old(list), old(session), entries);
      if appended > 0 {
        AddToVideoPlaylist(unmatched, afterCurrent);
      } else {
        NothingAdded(list, if afterCurrent then Current() else None);
        assert session + [] == session && loaded + [] == loaded;
      }
    }

    /** The lists after adding `unmatched` to the given ones. */
    ghost predicate Added(
        l: seq<Entry>, s: seq<Entry>, urls: seq<string>, unmatched: seq<Entry>, afterCurrent: bool)
      reads this
    {
      var more := WithUrl(unmatched);
      && list == Spliced(l, more, if afterCurrent then CurrentIdx(l, s, active, position) else None)
      && session == (if active && hasSocket then s + more else s)
      && loaded == (if active && hasSocket then urls + Urls(more) else urls)
    }
  }

  // ---- what completing a batch does -------------------------------------------------------

  /** A row is kept, or it was a placeholder and is now a resolved entry of the same link. */
  ghost predicate KeptOrFilled(before: Entry, after: Entry, batch: seq<Entry>) {
    before == after
    || (before.pending && LookupUrl(after) == LookupUrl(before)
        && exists b :: 0 <= b < |batch| && after == Resolved(batch[b]))
  }

  /** Filling moves no row, touches no resolved row, and keeps what every row is looked up by. A filled row
      is no placeholder any more, so it is filled once. */
  lemma {:induction false} FillingKeepsTheList(list: seq<Entry>, batch: seq<Entry>, i: nat)
    requires i < |list|
    ensures var filled := FillAll(list, batch);
      && |filled| == |list| && KeptOrFilled(list[i], filled[i], batch)
      && LookupUrl(filled[i]) == LookupUrl(list[i])
    decreases |batch|
  {
    if batch != [] {
      var next := Fill(list, batch[0]);
      FillingKeepsTheList(next, batch[1..], i);
      var after := FillAll(list, batch)[i];
      if next[i] == list[i] && after != list[i] {
        var b :| 0 <= b < |batch| - 1 && after == Resolved(batch[1..][b]);
        assert after == Resolved(batch[b + 1]);
      }
    }
  }

  /** Placeholders of one link are filled from the front. */
  lemma {:induction false} FilledFrontToBack(list: seq<Entry>, batch: seq<Entry>, key: string, i: nat, j: nat)
    requires i < j < |list| && Waits(list[i], key) && Waits(list[j], key)
    ensures |FillAll(list, batch)| == |list|
    ensures FillAll(list, batch)[i].pending ==> FillAll(list, batch)[j] == list[j]
    decreases |batch|
  {
    FillingKeepsTheList(list, batch, i);
    if batch != [] {
      var next := Fill(list, batch[0]);
      if next[i] == list[i] {
        FilledFrontToBack(next, batch[1..], key, i, j);
      } else {
        FillingKeepsTheList(next, batch[1..], i);
      }
    }
  }

  /** How many placeholders wait for a link, and how many entries of a batch bring it. */
  function Waiting(list: seq<Entry>, key: string): nat {
    if list == [] then 0 else (if Waits(list[0], key) then 1 else 0) + Waiting(list[1..], key)
  }

  function Brought(batch: seq<Entry>, key: string): nat {
    if batch == [] then 0 else (if LookupUrl(batch[0]) == key then 1 else 0) + Brought(batch[1..], key)
  }

  function Minus(a: nat, b: nat): nat { if a > b then a - b else 0 }
  function Max(a: nat, b: nat): nat { if a > b then a else b }

  lemma {:induction false} WaitingIff(list: seq<Entry>, key: string)
    ensures Waiting(list, key) > 0 <==> Placeholder(list, key) < |list|
  {
    if list != [] && !Waits(list[0], key) {
      WaitingIff(list[1..], key);
    }
  }

  lemma {:induction false} FillTakesOne(list: seq<Entry>, e: Entry, key: string)
    ensures Waiting(Fill(list, e), key)
         == Minus(Waiting(list, key), if LookupUrl(e) == key then 1 else 0)
    decreases |list|
  {
    WaitingIff(list, LookupUrl(e));
    if list != [] {
      if Waits(list[0], LookupUrl(e)) {
        assert Fill(list, e)[1..] == list[1..];
      } else {
        FillTakesOne(list[1..], e, key);
        WaitingIff(list[1..], key);
        assert Fill(list, e) == [list[0]] + Fill(list[1..], e);
      }
    }
  }

  /** Each entry of a link takes one placeholder of that link, as long as there are any. */
  lemma {:induction false} PlaceholdersLeft(list: seq<Entry>, batch: seq<Entry>, key: string)
    ensures Waiting(FillAll(list, batch), key) == Minus(Waiting(list, key), Brought(batch, key))
    decreases |batch|
  {
    if batch != [] {
      FillTakesOne(list, batch[0], key);
      PlaceholdersLeft(Fill(list, batch[0]), batch[1..], key);
    }
  }

  /** So the entries without a place are those beyond the placeholders of either list. */
  lemma {:induction false} UnmatchedCount(list: seq<Entry>, session: seq<Entry>, batch: seq<Entry>, key: string)
    ensures Brought(Pick(batch, Matches(list, session, batch), false), key)
         == Minus(Brought(batch, key), Max(Waiting(list, key), Waiting(session, key)))
    decreases |batch|
  {
    if batch != [] {
      FillTakesOne(list, batch[0], key);
      FillTakesOne(session, batch[0], key);
      WaitingIff(list, LookupUrl(batch[0]));
      WaitingIff(session, LookupUrl(batch[0]));
      UnmatchedCount(Fill(list, batch[0]), Fill(session, batch[0]), batch[1..], key);
      PickFirst(list, session, batch, [], []);
      BroughtFirst(batch, list, session, key);
    }
  }

  lemma BroughtFirst(batch: seq<Entry>, list: seq<Entry>, session: seq<Entry>, key: string)
    requires batch != []
    ensures var rest := Pick(batch[1..], Matches(Fill(list, batch[0]), Fill(session, batch[0]), batch[1..]), false);
      Brought(Pick(batch, Matches(list, session, batch), false), key)
      == Brought(rest, key)
         + if !Fills(list, batch[0]) && !Fills(session, batch[0]) && LookupUrl(batch[0]) == key then 1 else 0
  {
  }

  lemma {:induction false} PartsAddUp(batch: seq<Entry>, m: seq<bool>)
    requires |batch| == |m|
    ensures |Pick(batch, m, true)| + |Pick(batch, m, false)| == |batch|
  {
    if batch != [] {
      PartsAddUp(batch[1..], m[1..]);
    }
  }

  /** The two numbers that completing reports add up to the batch. */
  lemma ResolvedPlusAppended(list: seq<Entry>, session: seq<Entry>, batch: seq<Entry>)
    ensures |Pick(batch, Matches(list, session, batch), true)| + |Unmatched(list, session, batch)| == |batch|
  {
    PartsAddUp(batch, Matches(list, session, batch));
  }

  lemma {:induction false} WithUrlLength(entries: seq<Entry>)
    ensures |WithUrl(entries)| <= |entries|
    ensures |WithUrl(entries)| == |entries| <==> forall i :: 0 <= i < |entries| ==> entries[i].url != ""
  {
    if entries != [] {
      var before := entries[..|entries| - 1];
      WithUrlLength(before);
      assert forall i :: 0 <= i < |before| ==> before[i] == entries[i];
    }
  }

  lemma {:induction false} FillAllLength(list: seq<Entry>, batch: seq<Entry>)
    ensures |FillAll(list, batch)| == |list|
    decreases |batch|
  {
    if batch != [] {
      FillAllLength(Fill(list, batch[0]), batch[1..]);
    }
  }

  /** The number reported as appended is the growth of the list if and only if no entry without a placeholder
      lacks a URL; otherwise it is larger. */
  lemma AppendedIff(list: seq<Entry>, session: seq<Entry>, batch: seq<Entry>, at: Option<nat>)
    ensures var appended, growth :=
        |Unmatched(list, session, batch)|, |Completed(list, session, batch, at)| - |list|;
      && growth <= appended
      && (growth == appended
          <==> forall i :: 0 <= i < appended ==> Unmatched(list, session, batch)[i].url != "")
  {
    WithUrlLength(Unmatched(list, session, batch));
    FillAllLength(list, batch);
  }

  /** One entry without a URL, and nothing waiting for it: one is reported, none is added. */
  lemma ReportedNotAdded()
    ensures var batch := [Entry("title", "", Some("link"), false, 0)];
      |Unmatched([], [], batch)| == 1 && Completed([], [], batch, None) == []
  {
    var batch := [Entry("title", "", Some("link"), false, 0)];
    assert Unmatched([], [], batch) == batch;
    assert WithUrl(batch[..0]) == [];
    assert FillAll([], batch[1..]) == [];
  }

  /** Adding behind the current row, or at the end, leaves the current row where it is. */
  lemma CurrentStays(
      list: seq<Entry>, session: seq<Entry>, active: bool, pos: Option<nat>,
      entries: seq<Entry>, more: seq<Entry>, afterCurrent: bool)
    requires CurrentIdx(list, session, active, pos).Some?
    ensures var current := CurrentIdx(list, session, active, pos);
      CurrentIdx(Spliced(list, entries, if afterCurrent then current else None), session + more, active, pos) == current
  {
    var at := if pos.Some? then pos.value else 0;
    var current := CurrentIdx(list, session, active, pos);
    var after := Spliced(list, entries, if afterCurrent then current else None);
    FirstAtIs(list, session[at].url);
    FirstAtIs(after, session[at].url);
    assert forall k :: 0 <= k <= current.value ==> after[k] == list[k];
    assert (session + more)[at] == session[at];
  }

  // ---- early names ------------------------------------------------------------------------

  datatype EarlyTitle = EarlyTitle(link: string, title: string)

  predicate Blank(s: string) { forall i :: 0 <= i < |s| ==> IsWhitespace(s[i]) }

  predicate Nameless(e: Entry, link: string) { Waits(e, link) && Blank(e.title) }

  function FirstNameless(list: seq<Entry>, link: string): (i: nat)
    ensures i <= |list| && (forall k :: 0 <= k < i ==> !Nameless(list[k], link))
    ensures i < |list| ==> Nameless(list[i], link)
  {
    if list == [] || Nameless(list[0], link) then 0 else 1 + FirstNameless(list[1..], link)
  }

  function Name(list: seq<Entry>, early: EarlyTitle): seq<Entry> {
    var i := FirstNameless(list, early.link);
    if i < |list| then list[i := list[i].(title := early.title)] else list
  }

  function NameAll(list: seq<Entry>, titles: seq<EarlyTitle>): seq<Entry> {
    if titles == [] then list
    else Name(NameAll(list, titles[..|titles| - 1]), titles[|titles| - 1])
  }

  function Named(list: seq<Entry>, titles: seq<EarlyTitle>): nat {
    if titles == [] then 0
    else
      var before := titles[..|titles| - 1];
      var slot := FirstNameless(NameAll(list, before), titles[|titles| - 1].link);
      Named(list, before) + if slot < |NameAll(list, before)| then 1 else 0
  }

  method FillPendingIn(list: array<Entry>, titles: seq<EarlyTitle>) returns (filled: nat)
    modifies list
    ensures list[..] == NameAll(old(list[..]), titles) && filled == Named(old(list[..]), titles)
  {
    filled := 0;
    for t := 0 to |titles|
      invariant list[..] == NameAll(old(list[..]), titles[..t]) && filled == Named(old(list[..]), titles[..t])
    {
      assert titles[..t + 1][..t] == titles[..t];
      var early := titles[t];
      var slot := 0;
      while slot < list.Length && !Nameless(list[slot], early.link)
        invariant slot <= list.Length && forall k :: 0 <= k < slot ==> !Nameless(list[..][k], early.link)
      {
        slot := slot + 1;
      }
      assert slot == FirstNameless(list[..], early.link);
      if slot == list.Length {
        continue;
      }
      list[slot] := list[slot].(title := early.title);
      filled := filled + 1;
    }
    assert titles[..|titles|] == titles;
  }

  /** The first row that waits for this link without a name. */
  ghost predicate FirstUnnamed(list: seq<Entry>, link: string, i: nat) {
    && i < |list| && list[i].pending && Blank(list[i].title) && Linked(list[i], link)
    && forall k :: 0 <= k < i ==> !(list[k].pending && Blank(list[k].title) && Linked(list[k], link))
  }

  /** A title goes to the first row that waits for its link without a name. */
  lemma NameDoes(list: seq<Entry>, early: EarlyTitle)
    ensures forall i: nat :: FirstUnnamed(list, early.link, i) ==>
      Name(list, early) == list[i := list[i].(title := early.title)]
    ensures (forall i: nat :: !FirstUnnamed(list, early.link, i)) ==> Name(list, early) == list
  {
    var at := FirstNameless(list, early.link);
    forall k | 0 <= k < |list|
      ensures Nameless(list[k], early.link)
           <==> list[k].pending && Blank(list[k].title) && Linked(list[k], early.link)
    {
      LinkIff(list[k], early.link);
    }
    if at < |list| {
      assert FirstUnnamed(list, early.link, at);
      forall i: nat | FirstUnnamed(list, early.link, i) ensures i == at {
      }
    }
  }

  /** Only names change, only of placeholders, and never a name that is already there. */
  lemma {:induction false} OnlyBlankNamesChange(list: seq<Entry>, titles: seq<EarlyTitle>, i: nat)
    requires i < |list|
    ensures var now := NameAll(list, titles);
      && |now| == |list| && now[i] == list[i].(title := now[i].title)
      && (now[i] != list[i] ==> list[i].pending && Blank(list[i].title))
  {
    if titles != [] {
      OnlyBlankNamesChange(list, titles[..|titles| - 1], i);
    }
  }

  function BlankRows(list: seq<Entry>): nat {
    if list == [] then 0 else (if list[0].pending && Blank(list[0].title) then 1 else 0) + BlankRows(list[1..])
  }

  lemma {:induction false} NameFillsOne(list: seq<Entry>, early: EarlyTitle)
    requires !Blank(early.title)
    ensures BlankRows(list)
         == BlankRows(Name(list, early)) + if FirstNameless(list, early.link) < |list| then 1 else 0
    decreases |list|
  {
    if list != [] {
      if Nameless(list[0], early.link) {
        assert Name(list, early)[1..] == list[1..];
      } else {
        NameFillsOne(list[1..], early);
        assert Name(list, early) == [list[0]] + Name(list[1..], early);
      }
    }
  }

  /** With real names, the number reported is the number of rows that lost their blank. */
  lemma {:induction false} NamedRows(list: seq<Entry>, titles: seq<EarlyTitle>)
    requires forall i :: 0 <= i < |titles| ==> !Blank(titles[i].title)
    ensures BlankRows(list) == BlankRows(NameAll(list, titles)) + Named(list, titles)
  {
    if titles != [] {
      NamedRows(list, titles[..|titles| - 1]);
      NameFillsOne(NameAll(list, titles[..|titles| - 1]), titles[|titles| - 1]);
    }
  }
}
