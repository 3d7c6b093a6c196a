/** The frozen pages of an export and the frames they add up to. */
module AuditPages {
  import opened Leases
  import opened LeaseFrames
  import opened Sequences
  import opened AuditFrames
  import opened AuditChain

  datatype Coverage = Coverage(completeHistory: Option<bool>, completeWindow: Option<bool>, status: string,
                               boundaries: seq<string>, anchor: Option<AuditFrame>)

  datatype LiveCheckpoint = LiveCheckpoint(consistent: Option<bool>, integrityBoundary: Option<string>, timestamp: int,
                                           after: Digest, journal: string, version: int, commit: int, pending: Option<int>)

  datatype Page = Page(schema: int, bot: int, visibility: string, asOf: int, items: seq<AuditFrame>,
                       next: Option<string>, coverage: Coverage, checkpoint: Option<LiveCheckpoint>)

  const MAX_CURSOR: int := 16384
  const MAX_PAGES: int := 100

  predicate CursorChar(c: char) {
    'A' <= c <= 'Z' || 'a' <= c <= 'z' || '0' <= c <= '9' || c == '_' || c == '.' || c == '-'
  }

  predicate ValidPage(p: Page, s: Scope) {
    && p.schema == 2 && p.bot == s.bot && p.visibility == "public" && Number(p.asOf) && |p.items| <= s.pageSize
    && (p.next.Some? ==> 0 < |p.next.value| <= MAX_CURSOR
                         && forall i :: 0 <= i < |p.next.value| ==> CursorChar(p.next.value[i]))
  }

  /** A frame of the selected window. */
  predicate Selected(f: AuditFrame, s: Scope, d: Digests) {
    ValidAuditFrame(f, s, d) && s.start < f.body.timestamp <= s.end
  }

  function IdOf(f: AuditFrame): string { f.contract.frameId }

  /** Frames that share an identity are one and the same. */
  predicate Agreeing(frames: seq<AuditFrame>) {
    forall f, g :: f in frames && g in frames && IdOf(f) == IdOf(g) ==> f == g
  }

  predicate All(frames: seq<AuditFrame>, selected: AuditFrame -> bool) {
    forall f :: f in frames ==> selected(f)
  }

  function SelectedBy(s: Scope, d: Digests): AuditFrame -> bool { (f: AuditFrame) => Selected(f, s, d) }

  /** The dictionary of frames by identity. */
  predicate Indexes(unique: map<string, AuditFrame>, frames: seq<AuditFrame>) {
    && (forall f :: f in frames ==> IdOf(f) in unique && unique[IdOf(f)] == f)
    && (forall id :: id in unique ==> IdOf(unique[id]) == id && unique[id] in frames)
  }

  function ItemsOf(p: Page): seq<AuditFrame> { p.items }

  function AllItems(pages: seq<Page>): seq<AuditFrame> { FlatMap(pages, ItemsOf) }

  lemma IndexedAgree(unique: map<string, AuditFrame>, frames: seq<AuditFrame>)
    requires Indexes(unique, frames)
    ensures Agreeing(frames)
  {
  }

  lemma IndexNext(unique: map<string, AuditFrame>, frames: seq<AuditFrame>, f: AuditFrame)
    requires Indexes(unique, frames) && (IdOf(f) in unique ==> unique[IdOf(f)] == f)
    ensures Indexes(unique[IdOf(f) := f], frames + [f])
  {
    var next := unique[IdOf(f) := f];
    assert forall g :: g in frames + [f] <==> g in frames || g == f;
    forall g | g in frames ensures IdOf(g) in next && next[IdOf(g)] == g {}
  }

  /** Frames checked and read so far, and how many of them were repeats. */
  predicate Read(frames: seq<AuditFrame>, selected: AuditFrame -> bool, unique: map<string, AuditFrame>, repeats: int) {
    All(frames, selected) && Indexes(unique, frames) && |frames| == |unique.Keys| + repeats
  }

  lemma ReadNext(frames: seq<AuditFrame>, selected: AuditFrame -> bool, unique: map<string, AuditFrame>, repeats: int, f: AuditFrame)
    requires Read(frames, selected, unique, repeats) && selected(f)
    requires IdOf(f) in unique ==> unique[IdOf(f)] == f
    ensures Read(frames + [f], selected, unique[IdOf(f) := f], repeats + (if IdOf(f) in unique then 1 else 0))
  {
    IndexNext(unique, frames, f);
    KeysNext(unique, IdOf(f), f);
    AllNext(frames, f, selected);
  }

  lemma KeysNext<K, V>(m: map<K, V>, k: K, v: V)
    ensures m[k := v].Keys == m.Keys + {k}
    ensures |m[k := v].Keys| == |m.Keys| + (if k in m then 0 else 1)
  {
    assert m[k := v].Keys == m.Keys + {k};
  }

  lemma AllNext(frames: seq<AuditFrame>, f: AuditFrame, selected: AuditFrame -> bool)
    requires All(frames, selected) && selected(f)
    ensures All(frames + [f], selected)
  {
  }

  /** A repeat joins only if it is identical. */
  method ReadFrame(f: AuditFrame, s: Scope, d: Digests, unique: map<string, AuditFrame>, repeats: nat, ghost read: seq<AuditFrame>)
    returns (ok: bool, unique': map<string, AuditFrame>, repeats': nat)
    requires Read(read, SelectedBy(s, d), unique, repeats)
    ensures ok <==> SelectedBy(s, d)(f) && (IdOf(f) in unique ==> unique[IdOf(f)] == f)
    ensures ok ==> Read(read + [f], SelectedBy(s, d), unique', repeats')
  {
    unique', repeats' := unique, repeats;
    ok := CheckAuditFrame(f, s, d);
    if !ok || !(s.start < f.body.timestamp <= s.end) {
      return false, unique', repeats';
    }
    if IdOf(f) in unique {
      if f != unique[IdOf(f)] {
        return false, unique', repeats';
      }
      repeats' := repeats + 1;
    }
    ReadNext(read, SelectedBy(s, d), unique, repeats, f);
    unique' := unique[IdOf(f) := f];
  }

  lemma Refused(read: seq<AuditFrame>, items: seq<AuditFrame>, i: nat, selected: AuditFrame -> bool, unique: map<string, AuditFrame>)
    requires i < |items| && Indexes(unique, read + items[..i])
    requires !(selected(items[i]) && (IdOf(items[i]) in unique ==> unique[IdOf(items[i])] == items[i]))
    ensures !(All(items, selected) && Agreeing(read + items))
  {
    var f := items[i];
    assert f in items && f in read + items;
    if selected(f) {
      var g := unique[IdOf(f)];
      assert g in read + items[..i] && g in read + items;
    }
  }

  /** One page's frames join the dictionary. */
  method ReadItems(items: seq<AuditFrame>, s: Scope, d: Digests, unique: map<string, AuditFrame>, repeats: nat, ghost read: seq<AuditFrame>)
    returns (ok: bool, unique': map<string, AuditFrame>, repeats': nat)
    requires Read(read, SelectedBy(s, d), unique, repeats)
    ensures ok <==> All(items, SelectedBy(s, d)) && Agreeing(read + items)
    ensures ok ==> Read(read + items, SelectedBy(s, d), unique', repeats')
  {
    ok, unique', repeats' := true, unique, repeats;
    var i := 0;
    assert read + items[..0] == read;
    while i < |items|
      invariant 0 <= i <= |items|
      invariant Read(read + items[..i], SelectedBy(s, d), unique', repeats')
    {
      ghost var was := unique';
      assert read + items[..i] + [items[i]] == read + items[..i + 1];
      ok, unique', repeats' := ReadFrame(items[i], s, d, unique', repeats', read + items[..i]);
      if !ok {
        Refused(read, items, i, SelectedBy(s, d), was);
        return;
      }
      i := i + 1;
    }
    assert items[..i] == items;
    ok := true;
    assert forall f :: f in items ==> f in read + items;
    IndexedAgree(unique', read + items);
  }

  // --------------------------------------------------------------- all pages

  /** The page belongs to the same frozen export as the first, with a new cursor unless it is the last. */
  predicate PageFits(pages: seq<Page>, i: nat, s: Scope)
    requires i < |pages|
  {
    && ValidPage(pages[i], s)
    && (pages[i].next.Some? ==> forall j :: 0 <= j < i ==> pages[j].next != pages[i].next)
    && pages[i].asOf == pages[0].asOf && pages[i].checkpoint == pages[0].checkpoint
    && (i < |pages| - 1 ==> pages[i].next.Some?)
  }

  predicate PagesOk(pages: seq<Page>, s: Scope, d: Digests) {
    && (forall i :: 0 <= i < |pages| ==> PageFits(pages, i, s))
    && All(AllItems(pages), SelectedBy(s, d)) && Agreeing(AllItems(pages))
  }

  lemma PageRefused(pages: seq<Page>, i: nat, s: Scope, d: Digests)
    requires i < |pages|
    requires !(All(pages[i].items, SelectedBy(s, d)) && Agreeing(AllItems(pages[..i]) + pages[i].items))
    ensures !PagesOk(pages, s, d)
  {
    FlatMapNext(pages, i, ItemsOf);
    assert pages == pages[..i + 1] + pages[i + 1..];
    FlatMapConcat(pages[..i + 1], pages[i + 1..], ItemsOf);
    var read, all := AllItems(pages[..i]) + pages[i].items, AllItems(pages);
    assert forall f :: f in read ==> f in all;
    assert forall f :: f in pages[i].items ==> f in read;
  }

  method CheckPage(pages: seq<Page>, i: nat, s: Scope, seen: set<string>) returns (ok: bool, seen': set<string>)
    requires i < |pages|
    requires forall c :: c in seen <==> exists j :: 0 <= j < i && pages[j].next == Some(c)
    ensures ok <==> PageFits(pages, i, s)
    ensures ok ==> forall c :: c in seen' <==> exists j :: 0 <= j <= i && pages[j].next == Some(c)
  {
    seen' := seen;
    var p := pages[i];
    if !ValidPage(p, s) {
      return false, seen';
    }
    if p.next.Some? {
      if p.next.value in seen' {
        return false, seen';
      }
      seen' := seen' + {p.next.value};
    }
    ok := p.asOf == pages[0].asOf && p.checkpoint == pages[0].checkpoint && (i == |pages| - 1 || p.next.Some?);
  }

  method ReadPages(pages: seq<Page>, s: Scope, d: Digests)
    returns (ok: bool, unique: map<string, AuditFrame>, repeats: nat)
    ensures ok <==> PagesOk(pages, s, d)
    ensures ok ==> Read(AllItems(pages), SelectedBy(s, d), unique, repeats)
  {
    ok, unique, repeats := true, map[], 0;
    var seen: set<string> := {};
    var i := 0;
    while i < |pages|
      invariant 0 <= i <= |pages|
      invariant forall j :: 0 <= j < i ==> PageFits(pages, j, s)
      invariant forall c :: c in seen <==> exists j :: 0 <= j < i && pages[j].next == Some(c)
      invariant Read(AllItems(pages[..i]), SelectedBy(s, d), unique, repeats)
    {
      ok, seen := CheckPage(pages, i, s, seen);
      if !ok {
        return;
      }
      FlatMapNext(pages, i, ItemsOf);
      ok, unique, repeats := ReadItems(pages[i].items, s, d, unique, repeats, AllItems(pages[..i]));
      if !ok {
        PageRefused(pages, i, s, d);
        return;
      }
      i := i + 1;
    }
    assert pages[..i] == pages;
    ok := true;
    IndexedAgree(unique, AllItems(pages));
  }

  // -------------------------------------------------------------- the chain

  function CommitOf(f: AuditFrame): int { f.contract.commit }

  /** Each of the frames once, by commit. */
  ghost predicate Sorts(frames: seq<AuditFrame>, items: seq<AuditFrame>) {
    && SortedBy(frames, CommitOf)
    && (forall f :: f in frames <==> f in items)
    && |frames| == |set f | f in items :: IdOf(f)|
  }

  method SortFrames(unique: map<string, AuditFrame>) returns (frames: seq<AuditFrame>)
    requires forall id :: id in unique ==> IdOf(unique[id]) == id
    ensures SortedBy(frames, CommitOf)
    ensures forall f :: f in frames <==> IdOf(f) in unique && unique[IdOf(f)] == f
    ensures |frames| == |unique.Keys|
  {
    frames := [];
    var unread := unique.Keys;
    while unread != {}
      invariant unread <= unique.Keys
      invariant SortedBy(frames, CommitOf)
      invariant forall f :: f in frames <==> IdOf(f) in unique.Keys - unread && unique[IdOf(f)] == f
      invariant |frames| + |unread| == |unique.Keys|
    {
      var id :| id in unread;
      InsertSorts(frames, unique[id], CommitOf);
      forall f ensures f in Insert(frames, unique[id], CommitOf) <==> f in frames || f == unique[id] {
        InsertMembers(frames, unique[id], CommitOf, f);
      }
      frames := Insert(frames, unique[id], CommitOf);
      unread := unread - {id};
    }
  }

  lemma SortedUnique(frames: seq<AuditFrame>, items: seq<AuditFrame>, unique: map<string, AuditFrame>)
    requires Indexes(unique, items) && SortedBy(frames, CommitOf) && |frames| == |unique.Keys|
    requires forall f :: f in frames <==> IdOf(f) in unique && unique[IdOf(f)] == f
    ensures Sorts(frames, items) && |unique.Keys| == |set f | f in items :: IdOf(f)|
  {
    assert unique.Keys == set f | f in items :: IdOf(f);
  }
}
