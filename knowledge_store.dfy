/** The flat-file knowledge store: one directory per session under a root, one
    JSON file per logged entry named `<timestamp>-<kind>[-<suffix>].md`, and three
    read caches that every write to a session clears for that session. */
module KnowledgeStore {
  import opened Wrappers
  import opened Text
  import opened Order
  import opened Json

  const NoLearnings: string := "No previous learnings recorded."
  const DigestHeader: string := "Recent learnings:"

  /** The entry kinds the tools and the augmentation service write and read. */
  const UserActions: string := "user_actions"
  const AgentActions: string := "agent_actions"
  const SynthesisedLearnings: string := "synthesised_learnings"

  /** The body of one `.md` file: the decoded `{kind, metadata, content}` payload,
      or text that `json.loads` rejects. */
  datatype StoredFile =
    | Corrupt
    | Payload(kind: string, metadata: seq<(string, Json)>, content: string)

  /** A session directory: file name to file. */
  type SessionDir = map<string, StoredFile>

  /** `KnowledgeEntry`; the path is the session directory joined with `filename`. */
  datatype Entry = Entry(
    sessionId: string, kind: string, filename: string,
    content: string, metadata: seq<(string, Json)>)

  datatype SnapshotEntry = SnapshotEntry(kind: string, summary: string)

  /** `SessionSnapshot`; `updatedAt` is the session's modification time, an abstract clock value. */
  datatype Snapshot = Snapshot(
    sessionId: string, updatedAt: int, digest: string, recent: seq<SnapshotEntry>)

  /** The key of the entries cache: `(session_id, kind, limit)`. */
  datatype EntriesKey = EntriesKey(sessionId: string, kind: Option<string>, limit: int)

  // ---------------------------------------------------------------- file names

  /** `metadata.get("suffix")`, when it is truthy. */
  predicate HasSuffix(metadata: seq<(string, Json)>) {
    var s := Get(metadata, "suffix");
    s.Some? && Truthy(s.value)
  }

  /** `'-' + suffix` raises `TypeError` unless a truthy suffix is a string. */
  predicate SuffixIsText(metadata: seq<(string, Json)>) {
    HasSuffix(metadata) ==> Get(metadata, "suffix").value.JStr?
  }

  function SuffixPart(metadata: seq<(string, Json)>): string
    requires SuffixIsText(metadata)
  {
    if HasSuffix(metadata) then "-" + Get(metadata, "suffix").value.s else ""
  }

  /** `f"{timestamp}-{kind}{('-' + suffix) if suffix else ''}.md"`. */
  function FileName(timestamp: string, kind: string, metadata: seq<(string, Json)>): (name: string)
    requires SuffixIsText(metadata)
  {
    timestamp + "-" + kind + SuffixPart(metadata) + ".md"
  }

  /** The directories after writing `e`'s file into its session directory, which is
      created when missing; a file of the same name is replaced. */
  function WithEntry(root: map<string, SessionDir>, e: Entry): map<string, SessionDir> {
    var dir := if e.sessionId in root then root[e.sessionId] else map[];
    root[e.sessionId := dir[e.filename := Payload(e.kind, e.metadata, e.content)]]
  }

  // ---------------------------------------------------------------- listings

  /** `if kind and entry_kind != kind: continue` lets `k` through. */
  predicate Selects(kind: Option<string>, k: string) {
    kind.None? || kind.value == "" || kind.value == k
  }

  /** The `limit` the scan loop actually honours: it appends before it compares,
      so a limit below one still admits one entry. */
  function Cap(limit: int): (c: nat)
    ensures c >= 1 && (limit >= 1 ==> c == limit)
  {
    if limit < 1 then 1 else limit
  }

  /** Every readable file among `names` whose kind passes the filter, in the order of `names`
      (a name that is not in `dir` is passed over). */
  function Matching(sid: string, dir: SessionDir, names: seq<string>, kind: Option<string>): (r: seq<Entry>)
    ensures |r| <= |names|
    decreases |names|
  {
    if names == [] then []
    else
      var last := names[|names| - 1];
      var prefix := Matching(sid, dir, names[..|names| - 1], kind);
      if last !in dir then prefix
      else match dir[last]
      case Corrupt => prefix
      case Payload(k, md, c) =>
        if Selects(kind, k) then prefix + [Entry(sid, k, last, c, md)] else prefix
  }

  /** Every readable file of `dir` whose kind passes the filter, newest first. */
  function Newest(sid: string, dir: SessionDir, kind: Option<string>): seq<Entry> {
    Matching(sid, dir, Descending(dir.Keys), kind)
  }

  /** The first `n` entries, or all of them when there are fewer. */
  function Head(all: seq<Entry>, n: nat): (r: seq<Entry>)
    ensures r <= all && |r| <= n
  {
    if |all| <= n then all else all[..n]
  }

  /** What `entries(session_id, kind, limit)` reads from an existing directory. */
  function Listing(sid: string, dir: SessionDir, kind: Option<string>, limit: int): seq<Entry> {
    Head(Newest(sid, dir, kind), Cap(limit))
  }

  /** `entries` over the whole root: a session without a directory has no entries. */
  function ListingIn(root: map<string, SessionDir>, sid: string, kind: Option<string>, limit: int): seq<Entry> {
    if sid in root then Listing(sid, root[sid], kind, limit) else []
  }

  lemma {:induction false} MatchingSnoc(sid: string, dir: SessionDir, names: seq<string>, n: string, kind: Option<string>)
    requires n in dir
    ensures Matching(sid, dir, names + [n], kind) ==
      match dir[n]
      case Corrupt => Matching(sid, dir, names, kind)
      case Payload(k, md, c) =>
        if Selects(kind, k) then Matching(sid, dir, names, kind) + [Entry(sid, k, n, c, md)]
        else Matching(sid, dir, names, kind)
  {
    assert (names + [n])[..|names|] == names;
  }

  /** Scanning a prefix of the files yields a prefix of the full scan. */
  lemma {:induction false} MatchingPrefix(sid: string, dir: SessionDir, names: seq<string>, i: nat, kind: Option<string>)
    requires i <= |names|
    ensures Matching(sid, dir, names[..i], kind) <= Matching(sid, dir, names, kind)
    decreases |names| - i
  {
    if i < |names| {
      MatchingPrefix(sid, dir, names[..|names| - 1], i, kind);
      assert names[..|names| - 1][..i] == names[..i];
    } else {
      assert names[..i] == names;
    }
  }

  /** The file names of a list of entries. */
  function Filenames(es: seq<Entry>): (r: seq<string>)
    ensures |r| == |es| && forall i :: 0 <= i < |es| ==> r[i] == es[i].filename
  {
    if es == [] then [] else [es[0].filename] + Filenames(es[1..])
  }

  /** Each listed entry is a readable file of `names`, of the selected kind, read back as stored. */
  lemma {:induction false} MatchingSound(sid: string, dir: SessionDir, names: seq<string>, kind: Option<string>)
    ensures forall e :: e in Matching(sid, dir, names, kind) ==>
      && e.sessionId == sid && e.filename in names && e.filename in dir
      && dir[e.filename] == Payload(e.kind, e.metadata, e.content) && Selects(kind, e.kind)
    decreases |names|
  {
    if names != [] {
      var prefix := names[..|names| - 1];
      MatchingSound(sid, dir, prefix, kind);
      assert names == prefix + [names[|names| - 1]];
    }
  }

  /** Each readable file of `names` of the selected kind is listed. */
  lemma {:induction false} MatchingComplete(sid: string, dir: SessionDir, names: seq<string>, kind: Option<string>, n: string)
    requires n in names && n in dir && dir[n].Payload? && Selects(kind, dir[n].kind)
    ensures n in Filenames(Matching(sid, dir, names, kind))
    decreases |names|
  {
    var prefix := names[..|names| - 1];
    var last := names[|names| - 1];
    assert names == prefix + [last];
    var m := Matching(sid, dir, prefix, kind);
    if n == last {
      assert Matching(sid, dir, names, kind) == m + [Entry(sid, dir[n].kind, n, dir[n].content, dir[n].metadata)];
      assert Filenames(Matching(sid, dir, names, kind))[|m|] == n;
    } else {
      assert n in prefix;
      MatchingComplete(sid, dir, prefix, kind, n);
      var k :| 0 <= k < |m| && Filenames(m)[k] == n;
      assert m <= Matching(sid, dir, names, kind);
      assert Filenames(Matching(sid, dir, names, kind))[k] == n;
    }
  }

  /** Scanning names in descending order lists the files in descending order. */
  lemma {:induction false} MatchingDescending(sid: string, dir: SessionDir, names: seq<string>, kind: Option<string>)
    requires StrictlyDescending(names)
    ensures StrictlyDescending(Filenames(Matching(sid, dir, names, kind)))
    decreases |names|
  {
    if names != [] {
      var prefix := names[..|names| - 1];
      var last := names[|names| - 1];
      assert names == prefix + [last];
      MatchingDescending(sid, dir, prefix, kind);
      MatchingSound(sid, dir, prefix, kind);
      var m := Matching(sid, dir, prefix, kind);
      var r := Matching(sid, dir, names, kind);
      if r != m {
        assert r == m + [r[|r| - 1]] && r[|r| - 1].filename == last;
        var g, gm := Filenames(r), Filenames(m);
        forall i, j | 0 <= i < j < |g| ensures LexLt(g[j], g[i]) {
          assert g[i] == r[i].filename && r[i] == m[i];
          if j < |m| {
            assert g[j] == r[j].filename && r[j] == m[j];
            assert gm[i] == g[i] && gm[j] == g[j];
          } else {
            assert g[j] == last;
            assert m[i] in m;
            var k :| 0 <= k < |prefix| && prefix[k] == m[i].filename;
            assert names[k] == g[i] && k < |names| - 1;
          }
        }
      }
    }
  }

  /** Entries read back from `dir`, as stored, of the selected kind. */
  predicate ReadBack(sid: string, dir: SessionDir, kind: Option<string>, es: seq<Entry>) {
    forall e :: e in es ==>
      && e.sessionId == sid && e.filename in dir
      && dir[e.filename] == Payload(e.kind, e.metadata, e.content) && Selects(kind, e.kind)
  }

  /** Every readable file of `dir` of the selected kind is among `es`. */
  predicate Covers(dir: SessionDir, kind: Option<string>, es: seq<Entry>) {
    forall n :: n in dir && dir[n].Payload? && Selects(kind, dir[n].kind) ==> n in Filenames(es)
  }

  lemma {:induction false} NewestSpec(sid: string, dir: SessionDir, kind: Option<string>)
    ensures ReadBack(sid, dir, kind, Newest(sid, dir, kind))
    ensures StrictlyDescending(Filenames(Newest(sid, dir, kind)))
    ensures Covers(dir, kind, Newest(sid, dir, kind))
  {
    var names := Descending(dir.Keys);
    DescendingSorted(dir.Keys);
    DescendingMembers(dir.Keys);
    MatchingSound(sid, dir, names, kind);
    MatchingDescending(sid, dir, names, kind);
    forall n | n in dir && dir[n].Payload? && Selects(kind, dir[n].kind)
      ensures n in Filenames(Newest(sid, dir, kind))
    {
      MatchingComplete(sid, dir, names, kind, n);
    }
  }

  /** The first entries of a newest-first list are newest first. */
  lemma HeadDescending(all: seq<Entry>, n: nat)
    requires StrictlyDescending(Filenames(all))
    ensures StrictlyDescending(Filenames(Head(all, n)))
  {
    var r := Head(all, n);
    assert Filenames(r) == Filenames(all)[..|r|];
  }

  /** A name of a newest-first list that its first `n` entries leave out is older than
      each of them, and there are `n` of them. */
  lemma HeadOmitsOlder(all: seq<Entry>, n: nat, m: string)
    requires StrictlyDescending(Filenames(all))
    requires m in Filenames(all) && m !in Filenames(Head(all, n))
    ensures |Head(all, n)| == n
    ensures forall f :: f in Filenames(Head(all, n)) ==> LexLt(m, f)
  {
    var r := Head(all, n);
    var g, h := Filenames(all), Filenames(r);
    assert r == all[..|r|];
    var j :| 0 <= j < |g| && g[j] == m;
    assert |r| <= j;
    forall f | f in h ensures LexLt(m, f) {
      var i :| 0 <= i < |h| && h[i] == f;
      assert g[i] == all[i].filename == r[i].filename == f;
    }
  }

  /** Cutting a newest-first list that covers every readable file keeps only newer files. */
  lemma HeadSpec(sid: string, dir: SessionDir, kind: Option<string>, all: seq<Entry>, n: nat)
    requires ReadBack(sid, dir, kind, all) && StrictlyDescending(Filenames(all)) && Covers(dir, kind, all)
    ensures var r := Head(all, n);
      && ReadBack(sid, dir, kind, r) && StrictlyDescending(Filenames(r))
      && (forall m :: m in dir && dir[m].Payload? && Selects(kind, dir[m].kind) && m !in Filenames(r) ==>
            |r| == n && forall f :: f in Filenames(r) ==> LexLt(m, f))
  {
    HeadDescending(all, n);
    forall m | m in dir && dir[m].Payload? && Selects(kind, dir[m].kind) && m !in Filenames(Head(all, n))
      ensures |Head(all, n)| == n && forall f :: f in Filenames(Head(all, n)) ==> LexLt(m, f)
    {
      HeadOmitsOlder(all, n, m);
    }
  }

  /** `entries` over an existing directory: at most `limit` records (at least one is
      admitted even when `limit` is below one), newest file name first, each a readable
      file of the selected kind as stored.  Corrupt files do not use up the limit: a
      readable file of that kind is left out only when the limit is reached, and then
      it is older than every file returned. */
  lemma ListingSpec(sid: string, dir: SessionDir, kind: Option<string>, limit: int)
    ensures var r := Listing(sid, dir, kind, limit);
      && |r| <= Cap(limit)
      && StrictlyDescending(Filenames(r))
      && ReadBack(sid, dir, kind, r)
      && (forall n :: n in dir && dir[n].Payload? && Selects(kind, dir[n].kind) && n !in Filenames(r) ==>
            |r| == Cap(limit) && forall f :: f in Filenames(r) ==> LexLt(n, f))
  {
    NewestSpec(sid, dir, kind);
    HeadSpec(sid, dir, kind, Newest(sid, dir, kind), Cap(limit));
  }

  /** A directory holding a single file lists that file alone, when it is readable and
      of the selected kind. */
  lemma OneFileListing(sid: string, name: string, f: StoredFile, kind: Option<string>, limit: int)
    ensures Listing(sid, map[name := f], kind, limit) ==
      if f.Payload? && Selects(kind, f.kind) then [Entry(sid, f.kind, name, f.content, f.metadata)] else []
  {
    var dir := map[name := f];
    assert dir.Keys == {name};
    assert MaxOf({name}) == name;
    assert {name} - {name} == {};
    assert Descending(dir.Keys) == [name];
    assert [name] == [] + [name];
    MatchingSnoc(sid, dir, [], name, kind);
  }

  // ---------------------------------------------------------------- digests

  /** `entry.metadata.get("summary") or entry.content.splitlines()[0].strip()`;
      the index raises `IndexError` when the content is empty. */
  function DigestSummary(e: Entry): Result<string> {
    var s := Get(e.metadata, "summary");
    if s.Some? && Truthy(s.value) then Ok(Str(s.value))
    else if e.content == "" then Err("IndexError: list index out of range")
    else Ok(Strip(SplitLines(e.content)[0]))
  }

  /** `f"- [{entry.kind}] {summary}"`. */
  function DigestLine(e: Entry): Result<string> {
    match DigestSummary(e)
    case Err(m) => Err(m)
    case Ok(s) => Ok("- [" + e.kind + "] " + s)
  }

  /** `f` applied to each entry in order, or the first error it raises. */
  function Collect<T>(entries: seq<Entry>, f: Entry -> Result<T>): (r: Result<seq<T>>)
    ensures r.Ok? ==> |r.value| == |entries|
    decreases |entries|
  {
    if entries == [] then Ok([])
    else
      match Collect(entries[..|entries| - 1], f)
      case Err(m) => Err(m)
      case Ok(prefix) =>
        match f(entries[|entries| - 1])
        case Err(m) => Err(m)
        case Ok(x) => Ok(prefix + [x])
  }

  /** The digest lines of `entries`, or the first error met while building them. */
  function DigestLines(entries: seq<Entry>): (r: Result<seq<string>>)
    ensures r.Ok? ==> |r.value| == |entries|
  {
    Collect(entries, DigestLine)
  }

  /** The text `render_digest` produces from the entries it read. */
  function Digest(entries: seq<Entry>): Result<string> {
    if entries == [] then Ok(NoLearnings)
    else
      match DigestLines(entries)
      case Err(m) => Err(m)
      case Ok(lines) => Ok(Join("\n", [DigestHeader] + lines))
  }

  lemma {:induction false} DigestLinesErrSticks(entries: seq<Entry>, i: nat)
    requires i <= |entries| && DigestLines(entries[..i]).Err?
    ensures DigestLines(entries).Err?
    decreases |entries| - i
  {
    if i < |entries| {
      assert entries[..i] == entries[..|entries| - 1][..i];
      DigestLinesErrSticks(entries[..|entries| - 1], i);
      assert entries[..|entries|][..|entries| - 1] == entries[..|entries| - 1];
    } else {
      assert entries[..i] == entries;
    }
  }

  /** A non-empty digest cannot be mistaken for the "nothing recorded" sentinel:
      it starts with its header and has one line per entry after it. */
  lemma DigestShape(entries: seq<Entry>)
    requires entries != [] && Digest(entries).Ok?
    ensures StartsWith(Digest(entries).value, DigestHeader)
    ensures Digest(entries).value != NoLearnings
    ensures DigestLines(entries).Ok? && |DigestLines(entries).value| == |entries|
  {
    var lines := DigestLines(entries).value;
    var d := Join("\n", [DigestHeader] + lines);
    assert ([DigestHeader] + lines)[1..] == lines;
    assert d == DigestHeader + "\n" + Join("\n", lines);
    assert d[..|DigestHeader|] == DigestHeader;
    assert d[0] == 'R' && NoLearnings[0] == 'N';
  }

  /** `Collect` succeeds exactly when `f` succeeds on every entry, and then holds
      `f`'s results in order. */
  lemma {:induction false} CollectEach<T>(entries: seq<Entry>, f: Entry -> Result<T>)
    ensures Collect(entries, f).Ok? <==> forall i :: 0 <= i < |entries| ==> f(entries[i]).Ok?
    ensures Collect(entries, f).Ok? ==> forall i :: 0 <= i < |entries| ==>
      Collect(entries, f).value[i] == f(entries[i]).value
    decreases |entries|
  {
    if entries != [] {
      var n := |entries| - 1;
      var prefix := entries[..n];
      CollectEach(prefix, f);
      var rest := Collect(prefix, f);
      if rest.Err? {
        var j :| 0 <= j < n && f(prefix[j]).Err?;
        assert prefix[j] == entries[j];
      } else if f(entries[n]).Ok? {
        var r := rest.value + [f(entries[n]).value];
        assert Collect(entries, f) == Ok(r);
        forall i | 0 <= i < |entries| ensures f(entries[i]).Ok? && r[i] == f(entries[i]).value {
          if i < n { assert prefix[i] == entries[i]; }
        }
      }
    }
  }

  /** Building the digest lines fails exactly when some entry's summary cannot be
      computed; otherwise line `i` is `- [kind] summary` for entry `i`. */
  lemma DigestLinesPerEntry(entries: seq<Entry>)
    ensures DigestLines(entries).Ok? <==> forall i :: 0 <= i < |entries| ==> DigestSummary(entries[i]).Ok?
    ensures DigestLines(entries).Ok? ==> forall i :: 0 <= i < |entries| ==>
      DigestLines(entries).value[i] == "- [" + entries[i].kind + "] " + DigestSummary(entries[i]).value
  {
    CollectEach(entries, DigestLine);
  }

  // ---------------------------------------------------------------- snapshots

  /** `(entry.metadata.get("summary") or entry.content.splitlines()[0][:160]).strip()`. */
  function RecentSummary(e: Entry): Result<string> {
    var s := Get(e.metadata, "summary");
    if s.Some? && Truthy(s.value) then
      (if s.value.JStr? then Ok(Strip(s.value.s))
       else Err("AttributeError: object has no attribute 'strip'"))
    else if e.content == "" then Err("IndexError: list index out of range")
    else Ok(Strip(PyTake(SplitLines(e.content)[0], 160)))
  }

  /** The `recent` list of a snapshot, or the first error met building it. */
  function RecentOf(entries: seq<Entry>): (r: Result<seq<SnapshotEntry>>)
    ensures r.Ok? ==> |r.value| == |entries|
    ensures r.Ok? ==> forall i :: 0 <= i < |entries| ==> r.value[i].kind == entries[i].kind
  {
    if entries == [] then Ok([])
    else
      match RecentSummary(entries[0])
      case Err(m) => Err(m)
      case Ok(s) =>
        match RecentOf(entries[1..])
        case Err(m) => Err(m)
        case Ok(rest) => Ok([SnapshotEntry(entries[0].kind, s)] + rest)
  }

  // ---------------------------------------------------------------- oldest-first iteration

  /** What iterating `iter_all` yields before it stops, and whether it stops by raising
      (`json.loads` is unguarded there, so the first corrupt file raises). */
  datatype Stream = Stream(items: seq<Entry>, raises: bool)

  function Walk(sid: string, dir: SessionDir, names: seq<string>): Stream {
    if names == [] then Stream([], false)
    else if names[0] !in dir then Walk(sid, dir, names[1..])
    else
      match dir[names[0]]
      case Corrupt => Stream([], true)
      case Payload(k, md, c) =>
        var rest := Walk(sid, dir, names[1..]);
        Stream([Entry(sid, k, names[0], c, md)] + rest.items, rest.raises)
  }

  /** `iter_all(session_id)`: every entry, oldest first (ascending file name). */
  function IterAllIn(root: map<string, SessionDir>, sid: string): Stream {
    if sid !in root then Stream([], false)
    else Walk(sid, root[sid], Ascending(root[sid].Keys))
  }

  predicate NoCorrupt(dir: SessionDir) {
    forall n :: n in dir ==> dir[n].Payload?
  }

  lemma {:induction false} WalkReversesMatching(sid: string, dir: SessionDir, names: seq<string>)
    requires NoCorrupt(dir) && forall i :: 0 <= i < |names| ==> names[i] in dir
    ensures !Walk(sid, dir, names).raises
    ensures Reverse(Walk(sid, dir, names).items) == Matching(sid, dir, Reverse(names), None)
    decreases |names|
  {
    if names != [] {
      WalkReversesMatching(sid, dir, names[1..]);
      var rn := Reverse(names[1..]);
      assert Reverse(names) == rn + [names[0]];
      MatchingSnoc(sid, dir, rn, names[0], None);
      var w := Walk(sid, dir, names[1..]).items;
      var e := Walk(sid, dir, names).items[0];
      assert Reverse([e] + w) == Reverse(w) + [e] by {
        ReverseCons(e, w);
      }
    }
  }

  lemma ReverseCons<T>(x: T, s: seq<T>)
    ensures Reverse([x] + s) == Reverse(s) + [x]
  {
    assert ([x] + s)[1..] == s;
  }

  /** With no corrupt file, `iter_all` and an unfiltered, unbounded `entries` list the
      same records in opposite orders. */
  lemma IterAllReversesEntries(root: map<string, SessionDir>, sid: string)
    requires sid in root && NoCorrupt(root[sid])
    ensures !IterAllIn(root, sid).raises
    ensures Reverse(IterAllIn(root, sid).items) == Matching(sid, root[sid], Descending(root[sid].Keys), None)
  {
    var dir := root[sid];
    DescendingIsReversedAscending(dir.Keys);
    var asc := Ascending(dir.Keys);
    AscendingMembers(dir.Keys);
    assert forall i :: 0 <= i < |asc| ==> asc[i] in dir by {
      forall i | 0 <= i < |asc| ensures asc[i] in dir { assert asc[i] in asc; }
    }
    WalkReversesMatching(sid, dir, asc);
  }

  /** `iter_all` raises exactly when a name it walks is a corrupt file; a missing
      session yields nothing. */
  lemma {:induction false} WalkRaisesIffCorrupt(sid: string, dir: SessionDir, names: seq<string>)
    ensures Walk(sid, dir, names).raises <==> exists i :: 0 <= i < |names| && names[i] in dir && dir[names[i]].Corrupt?
    decreases |names|
  {
    if names != [] {
      WalkRaisesIffCorrupt(sid, dir, names[1..]);
      assert forall i :: 1 <= i < |names| ==> names[i] == names[1..][i - 1];
      if names[0] in dir && dir[names[0]].Payload? {
        assert forall i :: 0 <= i < |names[1..]| ==> names[1..][i] == names[i + 1];
      }
    }
  }

  lemma IterAllRaisesIffCorrupt(root: map<string, SessionDir>, sid: string)
    ensures sid !in root ==> IterAllIn(root, sid) == Stream([], false)
    ensures IterAllIn(root, sid).raises <==> sid in root && exists n :: n in root[sid] && root[sid][n].Corrupt?
  {
    if sid in root {
      var dir := root[sid];
      var asc := Ascending(dir.Keys);
      WalkRaisesIffCorrupt(sid, dir, asc);
      AscendingMembers(dir.Keys);
      if n :| n in dir && dir[n].Corrupt? {
        assert n in asc;
        var i :| 0 <= i < |asc| && asc[i] == n;
      }
    }
  }

  // ---------------------------------------------------------------- cache coherence

  /** A map with the keys of session `sid` removed. */
  function WithoutSession<V>(m: map<string, V>, sid: string): map<string, V> {
    map s | s in m && s != sid :: m[s]
  }

  function WithoutSessionEntries(m: map<EntriesKey, seq<Entry>>, sid: string): map<EntriesKey, seq<Entry>> {
    map k | k in m && k.sessionId != sid :: m[k]
  }

  lemma ListingEmpty(sid: string, dir: SessionDir, kind: Option<string>, limit: int)
    ensures Listing(sid, dir, kind, limit) == [] <==> Newest(sid, dir, kind) == []
  {
    assert Cap(limit) >= 1;
  }

  /** The entries cache holds nothing for `k`, or the current listing for `k`. */
  ghost predicate EntriesOk(root: map<string, SessionDir>, ec: map<EntriesKey, seq<Entry>>, k: EntriesKey) {
    k in ec ==> k.sessionId in root && ec[k] == Listing(k.sessionId, root[k.sessionId], k.kind, k.limit)
  }

  ghost predicate EntriesCoherent(root: map<string, SessionDir>, ec: map<EntriesKey, seq<Entry>>) {
    forall k {:trigger EntriesOk(root, ec, k)} :: EntriesOk(root, ec, k)
  }

  /** The digest cache holds nothing for `s`, or the current digest for the limit it was
      rendered with; the sentinel for a session without entries is never cached. */
  ghost predicate DigestOk(root: map<string, SessionDir>, dc: map<string, string>, dl: map<string, int>, s: string) {
    s in dc ==>
      s in root && s in dl && Listing(s, root[s], None, dl[s]) != []
      && Digest(Listing(s, root[s], None, dl[s])) == Ok(dc[s])
  }

  ghost predicate DigestsCoherent(root: map<string, SessionDir>, dc: map<string, string>, dl: map<string, int>) {
    forall s {:trigger DigestOk(root, dc, dl, s)} :: DigestOk(root, dc, dl, s)
  }

  /** A snapshot agrees with the session's current files and with the digest cache. */
  ghost predicate SnapshotCoherent(root: map<string, SessionDir>, dc: map<string, string>, snap: Snapshot) {
    var s := snap.sessionId;
    && s in root
    && RecentOf(Listing(s, root[s], None, 5)) == Ok(snap.recent)
    && (if s in dc then snap.digest == dc[s]
        else snap.digest == NoLearnings && Newest(s, root[s], None) == [])
  }

  ghost predicate SnapshotOk(root: map<string, SessionDir>, dc: map<string, string>, sc: map<string, Snapshot>, s: string) {
    s in sc ==> sc[s].sessionId == s && SnapshotCoherent(root, dc, sc[s])
  }

  ghost predicate SnapshotsCoherent(root: map<string, SessionDir>, dc: map<string, string>, sc: map<string, Snapshot>) {
    forall s {:trigger SnapshotOk(root, dc, sc, s)} :: SnapshotOk(root, dc, sc, s)
  }

  /** Rewriting one session's directory leaves the other sessions' cached values coherent. */
  lemma WriteKeepsOtherSessions(
    root: map<string, SessionDir>, root': map<string, SessionDir>, sid: string,
    ec: map<EntriesKey, seq<Entry>>, dc: map<string, string>, dl: map<string, int>, sc: map<string, Snapshot>)
    requires EntriesCoherent(root, ec) && DigestsCoherent(root, dc, dl) && SnapshotsCoherent(root, dc, sc)
    requires forall s :: s in root && s != sid ==> s in root' && root'[s] == root[s]
    ensures EntriesCoherent(root', WithoutSessionEntries(ec, sid))
    ensures DigestsCoherent(root', WithoutSession(dc, sid), dl)
    ensures SnapshotsCoherent(root', WithoutSession(dc, sid), WithoutSession(sc, sid))
  {
    var ec' := WithoutSessionEntries(ec, sid);
    var dc' := WithoutSession(dc, sid);
    var sc' := WithoutSession(sc, sid);
    forall k ensures EntriesOk(root', ec', k) {
      assert EntriesOk(root, ec, k);
    }
    forall s ensures DigestOk(root', dc', dl, s) {
      assert DigestOk(root, dc, dl, s);
    }
    forall s ensures SnapshotOk(root', dc', sc', s) {
      assert SnapshotOk(root, dc, sc, s);
    }
  }

  /** Caching a freshly rendered, non-empty digest keeps the caches coherent. */
  lemma CachingDigestKeepsCoherence(
    root: map<string, SessionDir>, dc: map<string, string>, dl: map<string, int>, sc: map<string, Snapshot>,
    sid: string, limit: int, d: string)
    requires DigestsCoherent(root, dc, dl) && SnapshotsCoherent(root, dc, sc)
    requires sid !in dc && ListingIn(root, sid, None, limit) != []
    requires Digest(ListingIn(root, sid, None, limit)) == Ok(d)
    ensures DigestsCoherent(root, dc[sid := d], dl[sid := limit])
    ensures SnapshotsCoherent(root, dc[sid := d], sc)
  {
    assert sid !in sc by {
      if sid in sc {
        assert SnapshotOk(root, dc, sc, sid);
        ListingEmpty(sid, root[sid], None, limit);
      }
    }
    var dc' := dc[sid := d];
    var dl' := dl[sid := limit];
    forall s ensures DigestOk(root, dc', dl', s) {
      assert DigestOk(root, dc, dl, s);
    }
    forall s ensures SnapshotOk(root, dc', sc, s) {
      assert SnapshotOk(root, dc, sc, s);
    }
  }

  // ---------------------------------------------------------------- the store

  class Store {
    /** The directories under the store's root. */
    var root: map<string, SessionDir>
    var digestCache: map<string, string>
    var entriesCache: map<EntriesKey, seq<Entry>>
    var sessionCache: map<string, Snapshot>
    /** The `limit` each cached digest was rendered with (the cache key omits it). */
    ghost var digestLimit: map<string, int>

    /** Every cached value is what a fresh read of `root` would produce. */
    ghost predicate Valid()
      reads this
    {
      && EntriesCoherent(root, entriesCache)
      && DigestsCoherent(root, digestCache, digestLimit)
      && SnapshotsCoherent(root, digestCache, sessionCache)
    }

    /** `KnowledgeStore(root)` over the directories already present. */
    constructor (existing: map<string, SessionDir>)
      ensures Valid()
      ensures root == existing && digestCache == map[] && entriesCache == map[] && sessionCache == map[]
    {
      root := existing;
      digestCache := map[];
      entriesCache := map[];
      sessionCache := map[];
      digestLimit := map[];
    }

    /** `log`: write one file and drop every cached value of that session.  A file
        with the same timestamp, kind and suffix is replaced. */
    method Log(sid: string, kind: string, content: string, metadata: seq<(string, Json)>, timestamp: string)
      returns (e: Entry)
      requires Valid()
      requires SuffixIsText(metadata)
      modifies this
      ensures Valid()
      ensures e == Entry(sid, kind, FileName(timestamp, kind, metadata), content, metadata)
      ensures root == WithEntry(old(root), e)
      ensures digestCache == WithoutSession(old(digestCache), sid)
      ensures entriesCache == WithoutSessionEntries(old(entriesCache), sid)
      ensures sessionCache == WithoutSession(old(sessionCache), sid)
    {
      var name := FileName(timestamp, kind, metadata);
      var dir := if sid in root then root[sid] else map[];
      var root0 := root;
      root := root[sid := dir[name := Payload(kind, metadata, content)]];
      WriteKeepsOtherSessions(root0, root, sid, entriesCache, digestCache, digestLimit, sessionCache);
      InvalidateCaches(sid);
      e := Entry(sid, kind, name, content, metadata);
    }

    /** `_invalidate_caches`: drop the digest, every entries list and the snapshot of `sid`. */
    method InvalidateCaches(sid: string)
      requires EntriesCoherent(root, WithoutSessionEntries(entriesCache, sid))
      requires DigestsCoherent(root, WithoutSession(digestCache, sid), digestLimit)
      requires SnapshotsCoherent(root, WithoutSession(digestCache, sid), WithoutSession(sessionCache, sid))
      modifies this
      ensures Valid()
      ensures root == old(root)
      ensures digestCache == WithoutSession(old(digestCache), sid)
      ensures entriesCache == WithoutSessionEntries(old(entriesCache), sid)
      ensures sessionCache == WithoutSession(old(sessionCache), sid)
    {
      var dc := WithoutSession(digestCache, sid);
      var ec := WithoutSessionEntries(entriesCache, sid);
      var sc := WithoutSession(sessionCache, sid);
      digestCache, entriesCache, sessionCache := dc, ec, sc;
      assert EntriesCoherent(root, ec) && DigestsCoherent(root, dc, digestLimit) && SnapshotsCoherent(root, dc, sc);
    }

    /** `entries(session_id, kind, limit)`: newest first, corrupt files skipped, cached. */
    method Entries(sid: string, kind: Option<string>, limit: int) returns (r: seq<Entry>)
      requires Valid()
      modifies this
      ensures Valid()
      ensures r == ListingIn(root, sid, kind, limit)
      ensures root == old(root) && digestCache == old(digestCache) && sessionCache == old(sessionCache)
      ensures digestLimit == old(digestLimit)
      ensures entriesCache == if sid in root then old(entriesCache)[EntriesKey(sid, kind, limit) := r]
                              else old(entriesCache)
    {
      var key := EntriesKey(sid, kind, limit);
      if key in entriesCache {
        assert EntriesOk(root, entriesCache, key);
        r := entriesCache[key];
        return;
      }
      if sid !in root {
        r := [];
        return;
      }
      r := Scan(sid, root[sid], kind, limit);
      var ec := entriesCache[key := r];
      forall k ensures EntriesOk(root, ec, k) {
        assert EntriesOk(root, entriesCache, k);
      }
      entriesCache := ec;
    }

    /** `render_digest(session_id, limit)`: cached per session, whatever the limit. */
    method RenderDigest(sid: string, limit: int) returns (r: Result<string>)
      requires Valid()
      modifies this
      ensures Valid()
      ensures root == old(root) && sessionCache == old(sessionCache)
      ensures sid in old(digestCache) ==>
                r == Ok(old(digestCache)[sid]) && digestCache == old(digestCache)
                && entriesCache == old(entriesCache)
      ensures sid !in old(digestCache) ==>
                && r == Digest(ListingIn(root, sid, None, limit))
                && entriesCache == (if sid in root then old(entriesCache)[EntriesKey(sid, None, limit) := ListingIn(root, sid, None, limit)]
                                    else old(entriesCache))
                && digestCache == (if r.Ok? && ListingIn(root, sid, None, limit) != [] then old(digestCache)[sid := r.value]
                                   else old(digestCache))
    {
      if sid in digestCache {
        r := Ok(digestCache[sid]);
        return;
      }
      var entries := Entries(sid, None, limit);
      if entries == [] {
        r := Ok(NoLearnings);
        return;
      }
      r := RenderLines(entries);
      if r.Ok? {
        CachingDigestKeepsCoherence(root, digestCache, digestLimit, sessionCache, sid, limit, r.value);
        digestCache := digestCache[sid := r.value];
        digestLimit := digestLimit[sid := limit];
      }
    }

    /** `list_sessions(limit)`: one snapshot per session directory, built or taken from
        the cache, newest first, at most `limit` of them.  `listing` is the order in which
        the root directory yields its entries (names that are not session directories
        are skipped); `updatedAt` gives each session's modification time. */
    method ListSessions(limit: int, listing: seq<string>, updatedAt: string -> int)
      returns (r: Result<seq<Snapshot>>, ghost collected: seq<Snapshot>)
      requires Valid()
      modifies this
      ensures Valid()
      ensures root == old(root)
      ensures Extends(sessionCache, old(sessionCache))
      ensures r.Ok? ==>
                && Ids(collected) == DirsIn(root, listing)
                && (forall k :: 0 <= k < |collected| ==>
                      Cached(sessionCache, collected[k]) && SnapshotCoherent(root, digestCache, collected[k]))
                && r.value == PyTake(SortByNewest(collected), limit)
                && NewestFirst(r.value) && (limit >= 0 ==> |r.value| <= limit)
    {
      var visited := VisitAll(listing, updatedAt);
      if visited.Err? {
        return Err(visited.error), [];
      }
      var snaps := visited.value;
      CachedAreCoherent(root, digestCache, sessionCache, snaps);
      SessionsPage(snaps, limit);
      r := Ok(PyTake(SortByNewest(snaps), limit));
      collected := snaps;
    }

    /** The loop of `list_sessions` over the root directory's listing: the snapshot of
        each session directory in listing order, or the first error building one raised. */
    method VisitAll(listing: seq<string>, updatedAt: string -> int) returns (r: Result<seq<Snapshot>>)
      requires Valid()
      modifies this
      ensures Valid() && root == old(root)
      ensures Extends(sessionCache, old(sessionCache))
      ensures r.Ok? ==> Ids(r.value) == DirsIn(root, listing) && AllCached(sessionCache, r.value)
    {
      var snaps: seq<Snapshot> := [];
      var i := 0;
      while i < |listing|
        invariant 0 <= i <= |listing|
        invariant Valid() && root == old(root)
        invariant Extends(sessionCache, old(sessionCache))
        invariant Ids(snaps) == DirsIn(root, listing[..i])
        invariant AllCached(sessionCache, snaps)
      {
        var sid := listing[i];
        assert listing[..i + 1] == listing[..i] + [sid];
        DirsInSnoc(root, listing[..i], sid);
        ghost var before := sessionCache;
        var visited := Visit(sid, updatedAt(sid));
        if visited.Err? {
          return Err(visited.error);
        }
        ExtendsKeepsCached(before, sessionCache, snaps);
        ExtendsTransitive(old(sessionCache), before, sessionCache);
        if visited.value.Some? {
          var snap := visited.value.value;
          IdsSnoc(snaps, snap);
          AllCachedSnoc(sessionCache, snaps, snap);
          snaps := snaps + [snap];
        }
        i := i + 1;
      }
      assert listing[..|listing|] == listing;
      r := Ok(snaps);
    }

    /** One turn of the `list_sessions` loop: skip a name that is not a session
        directory, reuse a cached snapshot, or build and cache a new one. */
    method Visit(sid: string, updatedAt: int) returns (r: Result<Option<Snapshot>>)
      requires Valid()
      modifies this
      ensures Valid() && root == old(root) && Extends(sessionCache, old(sessionCache))
      ensures r.Ok? ==> (r.value.Some? <==> sid in root)
      ensures r.Ok? && r.value.Some? ==> r.value.value.sessionId == sid && Cached(sessionCache, r.value.value)
    {
      if sid !in root {
        return Ok(None);
      }
      if sid in sessionCache {
        assert SnapshotOk(root, digestCache, sessionCache, sid);
        return Ok(Some(sessionCache[sid]));
      }
      var built := BuildSnapshot(sid, updatedAt);
      if built.Err? {
        return Err(built.error);
      }
      return Ok(Some(built.value));
    }

    /** The body of the `list_sessions` loop for a session with no cached snapshot:
        render its digest, read its five newest entries, cache the snapshot. */
    method BuildSnapshot(sid: string, updatedAt: int) returns (r: Result<Snapshot>)
      requires Valid() && sid in root && sid !in sessionCache
      modifies this
      ensures Valid() && root == old(root)
      ensures r.Ok? ==> && r.value.sessionId == sid && r.value.updatedAt == updatedAt
                        && sessionCache == old(sessionCache)[sid := r.value]
                        && SnapshotCoherent(root, digestCache, r.value)
      ensures r.Err? ==> sessionCache == old(sessionCache)
    {
      var digest := RenderDigest(sid, 3);
      if digest.Err? {
        return Err(digest.error);
      }
      var recentEntries := Entries(sid, None, 5);
      var recent := RecentOf(recentEntries);
      if recent.Err? {
        return Err(recent.error);
      }
      var snap := Snapshot(sid, updatedAt, digest.value, recent.value);
      if sid !in digestCache {
        ListingEmpty(sid, root[sid], None, 3);
      }
      assert SnapshotCoherent(root, digestCache, snap);
      var sc := sessionCache[sid := snap];
      forall s ensures SnapshotOk(root, digestCache, sc, s) {
        assert SnapshotOk(root, digestCache, sessionCache, s);
      }
      sessionCache := sc;
      r := Ok(snap);
    }
  }

  /** The scan loop of `entries` over one existing directory. */
  method Scan(sid: string, dir: SessionDir, kind: Option<string>, limit: int) returns (r: seq<Entry>)
    ensures r == Listing(sid, dir, kind, limit)
  {
    var files := Descending(dir.Keys);
    DescendingMembers(dir.Keys);
    r := [];
    var i := 0;
    ghost var full := false;
    while i < |files|
      invariant 0 <= i <= |files|
      invariant r == Matching(sid, dir, files[..i], kind)
      invariant |r| < Cap(limit)
      invariant !full
    {
      var name := files[i];
      assert name in files;
      MatchingSnoc(sid, dir, files[..i], name, kind);
      assert files[..i + 1] == files[..i] + [name];
      var f := dir[name];
      i := i + 1;
      if f.Payload? && Selects(kind, f.kind) {
        r := r + [Entry(sid, f.kind, name, f.content, f.metadata)];
        if |r| >= limit {
          full := true;
          break;
        }
      }
    }
    ScanResult(sid, dir, files, i, kind, limit, r, full);
  }

  lemma ScanResult(sid: string, dir: SessionDir, files: seq<string>, i: nat, kind: Option<string>, limit: int, r: seq<Entry>, full: bool)
    requires files == Descending(dir.Keys) && i <= |files|
    requires r == Matching(sid, dir, files[..i], kind)
    requires full ==> |r| == Cap(limit)
    requires !full ==> i == |files| && |r| < Cap(limit)
    ensures r == Listing(sid, dir, kind, limit)
  {
    MatchingPrefix(sid, dir, files, i, kind);
    var all := Matching(sid, dir, files, kind);
    if full {
      assert all[..Cap(limit)] == r;
    } else {
      assert files[..i] == files;
    }
  }

  /** The body of `render_digest` once entries were found: the header, then one line
      per entry, or the first error a line raises. */
  method RenderLines(entries: seq<Entry>) returns (r: Result<string>)
    requires entries != []
    ensures r == Digest(entries)
  {
    var lines := CollectLines(entries, DigestLine);
    if lines.Err? {
      return Err(lines.error);
    }
    r := Ok(Join("\n", [DigestHeader] + lines.value));
  }

  /** The line-building loop of `render_digest`: `f` applied to each entry in turn,
      stopping at the first error. */
  method CollectLines<T>(entries: seq<Entry>, f: Entry -> Result<T>) returns (r: Result<seq<T>>)
    ensures r == Collect(entries, f)
  {
    var lines: seq<T> := [];
    var i := 0;
    assert entries[..0] == [];
    while i < |entries|
      invariant 0 <= i <= |entries|
      invariant Collect(entries[..i], f) == Ok(lines)
    {
      var line := f(entries[i]);
      CollectSnoc(entries, i, f);
      if line.Err? {
        CollectFirstError(entries, i + 1, f);
        return Err(line.error);
      }
      lines := lines + [line.value];
      i := i + 1;
    }
    assert entries[..|entries|] == entries;
    r := Ok(lines);
  }

  lemma CollectSnoc<T>(entries: seq<Entry>, i: nat, f: Entry -> Result<T>)
    requires i < |entries|
    ensures Collect(entries[..i + 1], f) ==
      match Collect(entries[..i], f)
      case Err(m) => Err(m)
      case Ok(prefix) =>
        match f(entries[i])
        case Err(m) => Err(m)
        case Ok(x) => Ok(prefix + [x])
  {
    assert entries[..i + 1][..i] == entries[..i];
    assert entries[..i + 1][i] == entries[i];
  }

  lemma {:induction false} CollectFirstError<T>(entries: seq<Entry>, i: nat, f: Entry -> Result<T>)
    requires 1 <= i <= |entries|
    requires Collect(entries[..i - 1], f).Ok? && f(entries[i - 1]).Err?
    ensures Collect(entries, f) == Err(f(entries[i - 1]).error)
    decreases |entries| - i
  {
    if i < |entries| {
      assert entries[..|entries| - 1][..i - 1] == entries[..i - 1];
      assert entries[..|entries| - 1][i - 1] == entries[i - 1];
      CollectFirstError(entries[..|entries| - 1], i, f);
    } else {
      assert entries[..i - 1] == entries[..|entries| - 1];
    }
  }

  // ---------------------------------------------------------------- session listing

  /** The names in `listing` that are session directories, in listing order. */
  function DirsIn(root: map<string, SessionDir>, listing: seq<string>): (r: seq<string>)
    ensures |r| <= |listing|
    ensures forall k :: 0 <= k < |r| ==> r[k] in root
  {
    if listing == [] then []
    else
      var rest := DirsIn(root, listing[..|listing| - 1]);
      if listing[|listing| - 1] in root then rest + [listing[|listing| - 1]] else rest
  }

  lemma DirsInSnoc(root: map<string, SessionDir>, listing: seq<string>, n: string)
    ensures DirsIn(root, listing + [n]) == if n in root then DirsIn(root, listing) + [n] else DirsIn(root, listing)
  {
    assert (listing + [n])[..|listing|] == listing;
  }

  /** The session ids of a list of snapshots. */
  function Ids(snaps: seq<Snapshot>): (r: seq<string>)
    ensures |r| == |snaps|
  {
    if snaps == [] then [] else Ids(snaps[..|snaps| - 1]) + [snaps[|snaps| - 1].sessionId]
  }

  lemma IdsSnoc(snaps: seq<Snapshot>, x: Snapshot)
    ensures Ids(snaps + [x]) == Ids(snaps) + [x.sessionId]
  {
    assert (snaps + [x])[..|snaps|] == snaps;
  }

  lemma AllCachedSnoc(sc: map<string, Snapshot>, snaps: seq<Snapshot>, x: Snapshot)
    requires AllCached(sc, snaps) && Cached(sc, x)
    ensures AllCached(sc, snaps + [x])
  {
    var t := snaps + [x];
    forall k | 0 <= k < |t| ensures Cached(sc, t[k]) {
      if k < |snaps| { assert t[k] == snaps[k]; }
    }
  }

  /** The snapshot is the one the session cache holds for its session. */
  predicate Cached(sc: map<string, Snapshot>, snap: Snapshot) {
    snap.sessionId in sc && sc[snap.sessionId] == snap
  }

  predicate AllCached(sc: map<string, Snapshot>, snaps: seq<Snapshot>) {
    forall k :: 0 <= k < |snaps| ==> Cached(sc, snaps[k])
  }

  /** `sc'` keeps every snapshot `sc` holds. */
  predicate Extends(sc': map<string, Snapshot>, sc: map<string, Snapshot>) {
    forall s :: s in sc ==> s in sc' && sc'[s] == sc[s]
  }

  lemma ExtendsKeepsCached(sc: map<string, Snapshot>, sc': map<string, Snapshot>, snaps: seq<Snapshot>)
    requires AllCached(sc, snaps) && Extends(sc', sc)
    ensures AllCached(sc', snaps)
  {
    forall k | 0 <= k < |snaps| ensures Cached(sc', snaps[k]) {
      assert Cached(sc, snaps[k]);
    }
  }

  lemma ExtendsTransitive(a: map<string, Snapshot>, b: map<string, Snapshot>, c: map<string, Snapshot>)
    requires Extends(b, a) && Extends(c, b)
    ensures Extends(c, a)
  {
  }

  lemma CachedAreCoherent(root: map<string, SessionDir>, dc: map<string, string>, sc: map<string, Snapshot>, snaps: seq<Snapshot>)
    requires SnapshotsCoherent(root, dc, sc)
    requires AllCached(sc, snaps)
    ensures forall k :: 0 <= k < |snaps| ==> Cached(sc, snaps[k]) && SnapshotCoherent(root, dc, snaps[k])
  {
    forall k | 0 <= k < |snaps| ensures SnapshotCoherent(root, dc, snaps[k]) {
      assert Cached(sc, snaps[k]);
      assert SnapshotOk(root, dc, sc, snaps[k].sessionId);
    }
  }

  /** Non-increasing modification time. */
  predicate NewestFirst(s: seq<Snapshot>) {
    forall i, j :: 0 <= i < j < |s| ==> s[i].updatedAt >= s[j].updatedAt
  }

  /** Place `x` after every snapshot at least as new as it (keeps ties in arrival order). */
  function InsertByAge(x: Snapshot, s: seq<Snapshot>): (r: seq<Snapshot>)
    requires NewestFirst(s)
    ensures NewestFirst(r)
    ensures |r| == |s| + 1
    ensures r[0] == x || (s != [] && r[0] == s[0])
  {
    if s == [] then [x]
    else if s[0].updatedAt >= x.updatedAt then
      var rest := InsertByAge(x, s[1..]);
      var r := [s[0]] + rest;
      assert NewestFirst(r) by {
        forall i, j | 0 <= i < j < |r| ensures r[i].updatedAt >= r[j].updatedAt {
          if i == 0 {
            assert rest[0].updatedAt >= rest[j - 1].updatedAt;
          } else {
            assert r[i] == rest[i - 1] && r[j] == rest[j - 1];
          }
        }
      }
      r
    else [x] + s
  }

  lemma {:induction false} InsertByAgeKeepsAll(x: Snapshot, s: seq<Snapshot>)
    requires NewestFirst(s)
    ensures multiset(InsertByAge(x, s)) == multiset(s) + multiset{x}
  {
    if s != [] && s[0].updatedAt >= x.updatedAt {
      InsertByAgeKeepsAll(x, s[1..]);
      assert s == [s[0]] + s[1..];
    }
  }

  /** `snapshots.sort(key=updated_at, reverse=True)`. */
  function SortByNewest(s: seq<Snapshot>): (r: seq<Snapshot>)
    ensures NewestFirst(r)
    ensures |r| == |s|
  {
    if s == [] then [] else InsertByAge(s[|s| - 1], SortByNewest(s[..|s| - 1]))
  }

  /** The sorted list is a permutation of the collected snapshots. */
  lemma {:induction false} SortByNewestKeepsAll(s: seq<Snapshot>)
    ensures multiset(SortByNewest(s)) == multiset(s)
  {
    if s != [] {
      SortByNewestKeepsAll(s[..|s| - 1]);
      InsertByAgeKeepsAll(s[|s| - 1], SortByNewest(s[..|s| - 1]));
      assert s == s[..|s| - 1] + [s[|s| - 1]];
    }
  }

  /** What `list_sessions` returns from the snapshots it collected: newest first, at
      most `limit` of them, each one collected. */
  lemma SessionsPage(collected: seq<Snapshot>, limit: int)
    ensures NewestFirst(PyTake(SortByNewest(collected), limit))
    ensures limit >= 0 ==> |PyTake(SortByNewest(collected), limit)| <= limit
    ensures multiset(PyTake(SortByNewest(collected), limit)) <= multiset(collected)
  {
    var sorted := SortByNewest(collected);
    var n := PyIndex(|sorted|, limit);
    var page := sorted[..n];
    assert PyTake(sorted, limit) == page;
    forall i, j | 0 <= i < j < |page| ensures page[i].updatedAt >= page[j].updatedAt {
      assert page[i] == sorted[i] && page[j] == sorted[j];
    }
    SortByNewestKeepsAll(collected);
    assert sorted == page + sorted[n..];
    assert multiset(sorted) == multiset(page) + multiset(sorted[n..]);
  }

  // ---------------------------------------------------------------- scenarios

  /** The digest of one entry whose metadata carries a non-empty summary. */
  lemma SummarisedDigest(e: Entry, summary: string)
    requires e.metadata == [("summary", JStr(summary))] && summary != ""
    ensures Digest([e]) == Ok(DigestHeader + "\n- [" + e.kind + "] " + summary)
  {
    var line := "- [" + e.kind + "] " + summary;
    assert DigestLine(e) == Ok(line);
    assert [e][..0] == [];
    assert Collect([], DigestLine) == Ok([]);
    assert Collect([e], DigestLine) == Ok([] + [line]);
    assert [DigestHeader, line][1..] == [line];
    assert Join("\n", [DigestHeader, line]) == DigestHeader + "\n" + line;
    assert "\n- [" == "\n" + "- [";
    assert DigestHeader + "\n" + line == DigestHeader + "\n- [" + e.kind + "] " + summary;
  }

  /** Logging one summarised user action and reading it back: the digest names its
      kind and summary, and `entries` returns it. */
  method LogAndRetrieve() returns (digest: Result<string>, listed: seq<Entry>)
    ensures digest == Ok(DigestHeader + "\n- [" + "user_actions" + "] " + "React useEffect intro")
    ensures |listed| == 1 && listed[0].kind == "user_actions" && listed[0].content == "Asked about useEffect"
  {
    var store := new Store(map[]);
    var md := [("summary", JStr("React useEffect intro"))];
    assert Get(md, "suffix") == None;
    var e := store.Log("session", "user_actions", "Asked about useEffect", md, "20250927-120000");
    var f := Payload("user_actions", md, "Asked about useEffect");
    assert store.root == map["session" := map[e.filename := f]];
    OneFileListing("session", e.filename, f, None, 3);
    OneFileListing("session", e.filename, f, None, 5);
    SummarisedDigest(e, "React useEffect intro");
    digest := store.RenderDigest("session", 3);
    assert digest == Digest([e]);
    listed := store.Entries("session", None, 5);
    assert listed == [e];
  }

  /** Two writes in the same second with the same kind and no suffix land in one file:
      the session then holds only the second content. */
  method SameSecondOverwrite(sid: string, kind: string, first: string, second: string, timestamp: string)
    returns (listed: seq<Entry>)
    ensures |listed| == 1 && listed[0].content == second && listed[0].kind == kind
  {
    var store := new Store(map[]);
    var e1 := store.Log(sid, kind, first, [], timestamp);
    var e2 := store.Log(sid, kind, second, [], timestamp);
    assert store.root[sid] == map[e2.filename := Payload(kind, [], second)];
    OneFileListing(sid, e2.filename, Payload(kind, [], second), None, 5);
    listed := store.Entries(sid, None, 5);
  }

  /** The digest cache is keyed by session alone: once a digest rendered with one
      limit is cached, asking with another limit returns the same text. */
  method DigestCacheIgnoresLimit(existing: map<string, SessionDir>, sid: string, first: int, second: int)
    returns (d1: Result<string>, d2: Result<string>)
    ensures d1 == Digest(ListingIn(existing, sid, None, first))
    ensures d1.Ok? && ListingIn(existing, sid, None, first) != [] ==> d2 == d1
    ensures ListingIn(existing, sid, None, first) == [] ==> d2 == Digest(ListingIn(existing, sid, None, second))
  {
    var store := new Store(existing);
    d1 := store.RenderDigest(sid, first);
    d2 := store.RenderDigest(sid, second);
  }
}
