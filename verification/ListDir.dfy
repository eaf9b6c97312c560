/** The breadth-first directory listing and its pages (openjax-core/src/tools/list_dir.rs):
    a queue-driven walk that collects what a recursive definition says, sorts it by name
    with an unstable sort, and cuts it into pages that separate calls ask for. */
module ListDir {
  import opened Common

  // ---- Files -------------------------------------------------------------

  /** What the file system holds. A link is not followed. */
  datatype Node =
    | Dir(name: string, readable: bool, contents: seq<Node>)
    | File(name: string, bytes: nat)
    | Symlink(name: string)
    | Other(name: string)

  datatype Kind = Directory | Regular | Link | Unknown

  datatype Entry = Entry(name: string, displayName: string, depth: nat, kind: Kind, size: Option<nat>)

  datatype Error = ZeroOffset | ZeroLimit | ZeroDepth | Unreadable | OffsetTooLarge

  datatype Result<T> = Ok(value: T) | Err(error: Error)

  const MAX_ENTRY_LENGTH: nat := 500

  // ---- Names -------------------------------------------------------------

  /** Bytes of a character in UTF-8. */
  function Utf8Length(c: char): nat {
    if c as int < 0x80 then 1 else if c as int < 0x800 then 2 else if c as int < 0x1_0000 then 3 else 4
  }

  function ByteLength(s: string): nat {
    if s == "" then 0 else Utf8Length(s[0]) + ByteLength(s[1..])
  }

  function TakeBytes(s: string, max: nat): string {
    if s == "" || Utf8Length(s[0]) > max then "" else [s[0]] + TakeBytes(s[1..], max - Utf8Length(s[0]))
  }

  /** The cut is the longest prefix that fits, and a text that fits is not cut. */
  lemma {:induction false} TakeBytesFits(s: string, max: nat)
    ensures TakeBytes(s, max) <= s && ByteLength(TakeBytes(s, max)) <= max
    ensures ByteLength(s) <= max ==> TakeBytes(s, max) == s
    ensures var n := |TakeBytes(s, max)|; n < |s| ==> ByteLength(TakeBytes(s, max)) + Utf8Length(s[n]) > max
  {
    if s != "" && Utf8Length(s[0]) <= max {
      TakeBytesFits(s[1..], max - Utf8Length(s[0]));
      assert s == [s[0]] + s[1..];
      assert TakeBytes(s, max)[1..] == TakeBytes(s[1..], max - Utf8Length(s[0]));
    }
  }

  function Slashes(s: string): string {
    if s == "" then "" else [if s[0] == '\\' then '/' else s[0]] + Slashes(s[1..])
  }

  function Join(path: seq<string>): string {
    if path == [] then "" else if |path| == 1 then path[0] else path[0] + "/" + Join(path[1..])
  }

  function SortKey(path: seq<string>): string {
    TakeBytes(Slashes(Join(path)), MAX_ENTRY_LENGTH)
  }

  function EntryOf(n: Node, prefix: seq<string>): Entry {
    Entry(SortKey(prefix + [n.name]), TakeBytes(n.name, MAX_ENTRY_LENGTH), |prefix|,
          (match n
           case Dir(_, _, _) => Directory
           case File(_, _) => Regular
           case Symlink(_) => Link
           case Other(_) => Unknown),
          if n.File? then Some(n.bytes) else None)
  }

  /** An entry says what its node is, how deep it lies, a file's size, and its name, cut to the
      longest part of at most five hundred bytes. */
  lemma {:induction false} EntryTells(n: Node, prefix: seq<string>)
    ensures var e := EntryOf(n, prefix);
      && (e.kind == Directory <==> n.Dir?) && (e.kind == Regular <==> n.File?) && (e.kind == Link <==> n.Symlink?)
      && (e.size == if n.File? then Some(n.bytes) else None)
      && e.depth == |prefix|
      && e.displayName <= n.name && ByteLength(e.displayName) <= 500
      && (|e.displayName| < |n.name| ==> ByteLength(e.displayName) + Utf8Length(n.name[|e.displayName|]) > 500)
      && e.name <= Slashes(Join(prefix + [n.name])) && ByteLength(e.name) <= 500
      && (|e.name| < |Slashes(Join(prefix + [n.name]))| ==>
            ByteLength(e.name) + Utf8Length(Slashes(Join(prefix + [n.name]))[|e.name|]) > 500)
  {
    TakeBytesFits(n.name, 500);
    TakeBytesFits(Slashes(Join(prefix + [n.name])), 500);
  }

  /** The borders between one, two, three and four bytes. */
  lemma {:induction false} Utf8Borders()
    ensures Utf8Length('\U{7F}') == 1 && Utf8Length('\U{80}') == 2 && Utf8Length('\U{7FF}') == 2
    ensures Utf8Length('\U{800}') == 3 && Utf8Length('\U{FFFF}') == 3 && Utf8Length('\U{10000}') == 4
  {
  }

  // ---- Order -------------------------------------------------------------

  predicate Leq(a: string, b: string) {
    CompareString(a, b) != Greater
  }

  lemma {:induction false} LeqTotal(a: string, b: string)
    ensures Leq(a, b) || Leq(b, a)
    ensures Leq(a, b) && Leq(b, a) ==> a == b
  {
    CompareStringLaws(a, b);
  }

  lemma {:induction false} LeqTransitive(a: string, b: string, c: string)
    requires Leq(a, b) && Leq(b, c)
    ensures Leq(a, c)
  {
    CompareStringTransitive(a, b, c);
  }

  ghost predicate Sorted<T>(s: seq<T>, key: T -> string) {
    forall i, j :: 0 <= i < j < |s| ==> Leq(key(s[i]), key(s[j]))
  }

  function Insert<T>(x: T, s: seq<T>, key: T -> string): seq<T> {
    if s == [] || Leq(key(x), key(s[0])) then [x] + s else [s[0]] + Insert(x, s[1..], key)
  }

  lemma {:induction false} OneMore<T>(r: seq<T>, s: seq<T>, x: T, j: nat)
    requires multiset(r) == multiset(s) + multiset{x} && j < |r|
    ensures r[j] == x || r[j] in s
  {
    assert r[j] in multiset(r);
  }

  lemma {:induction false} InsertSorts<T>(x: T, s: seq<T>, key: T -> string)
    requires Sorted(s, key)
    ensures Sorted(Insert(x, s, key), key)
    ensures multiset(Insert(x, s, key)) == multiset(s) + multiset{x}
  {
    hide Leq;
    var r := Insert(x, s, key);
    if s == [] {
    } else if Leq(key(x), key(s[0])) {
      forall j | 0 < j < |r| ensures Leq(key(x), key(r[j])) {
        if j > 1 { LeqTransitive(key(x), key(s[0]), key(s[j - 1])); }
      }
    } else {
      var rest := Insert(x, s[1..], key);
      InsertSorts(x, s[1..], key);
      LeqTotal(key(x), key(s[0]));
      assert s == [s[0]] + s[1..];
      forall j | 0 < j < |r| ensures Leq(key(s[0]), key(r[j])) {
        OneMore(rest, s[1..], x, j - 1);
        assert r[j] == rest[j - 1];
      }
    }
  }

  function SortBy<T>(s: seq<T>, key: T -> string): (r: seq<T>)
    ensures multiset(r) == multiset(s) && Sorted(r, key)
  {
    if s == [] then []
    else
      assert s == [s[0]] + s[1..];
      InsertSorts(s[0], SortBy(s[1..], key), key);
      Insert(s[0], SortBy(s[1..], key), key)
  }

  function EntryName(e: Entry): string {
    e.name
  }

  // ---- The listing, by recursion -----------------------------------------

  /** The entries at most `depth` levels down, each directory followed by its contents. */
  function Below(nodes: seq<Node>, prefix: seq<string>, depth: nat): seq<Entry>
    decreases nodes
  {
    if nodes == [] then []
    else [EntryOf(nodes[0], prefix)] + Inside(nodes[0], prefix, depth) + Below(nodes[1..], prefix, depth)
  }

  function Inside(n: Node, prefix: seq<string>, depth: nat): seq<Entry>
    decreases n
  {
    if n.Dir? && depth > 1 then Below(n.contents, prefix + [n.name], depth - 1) else []
  }

  /** Some directory the listing would have to open cannot be read. */
  predicate Blocked(readable: bool, nodes: seq<Node>, depth: nat)
    decreases nodes
  {
    !readable || exists i :: 0 <= i < |nodes| && BlockedInside(nodes[i], depth)
  }

  predicate BlockedInside(n: Node, depth: nat)
    decreases n
  {
    n.Dir? && depth > 1 && Blocked(n.readable, n.contents, depth - 1)
  }

  // ---- The walk ----------------------------------------------------------

  /** A directory waiting in the queue. */
  datatype Job = Job(readable: bool, nodes: seq<Node>, prefix: seq<string>, depth: nat)

  ghost function Pending(queue: seq<Job>): seq<Entry> {
    if queue == [] then [] else Below(queue[0].nodes, queue[0].prefix, queue[0].depth) + Pending(queue[1..])
  }

  ghost predicate JobBlocked(job: Job) {
    Blocked(job.readable, job.nodes, job.depth)
  }

  ghost predicate AnyBlocked(queue: seq<Job>) {
    exists i :: 0 <= i < |queue| && JobBlocked(queue[i])
  }

  /** What opening a directory adds to the entries and to the queue. */
  ghost function Listed(nodes: seq<Node>, prefix: seq<string>): (r: seq<Entry>)
    ensures |r| == |nodes|
  {
    if nodes == [] then [] else Listed(nodes[..|nodes| - 1], prefix) + [EntryOf(nodes[|nodes| - 1], prefix)]
  }

  ghost function SubJob(n: Node, prefix: seq<string>, depth: nat): (r: seq<Job>)
    ensures |r| <= 1
  {
    if n.Dir? && depth > 1 then [Job(n.readable, n.contents, prefix + [n.name], depth - 1)] else []
  }

  ghost function SubJobs(nodes: seq<Node>, prefix: seq<string>, depth: nat): (r: seq<Job>)
    ensures |r| <= |nodes|
  {
    if nodes == [] then []
    else SubJobs(nodes[..|nodes| - 1], prefix, depth) + SubJob(nodes[|nodes| - 1], prefix, depth)
  }

  lemma {:induction false} PendingConcat(a: seq<Job>, b: seq<Job>)
    ensures Pending(a + b) == Pending(a) + Pending(b)
  {
    hide Below;
    if a == [] {
      assert a + b == b;
    } else {
      assert (a + b)[1..] == a[1..] + b;
      PendingConcat(a[1..], b);
    }
  }

  lemma {:induction false} BelowConcat(a: seq<Node>, b: seq<Node>, prefix: seq<string>, depth: nat)
    ensures Below(a + b, prefix, depth) == Below(a, prefix, depth) + Below(b, prefix, depth)
  {
    hide Inside, EntryOf;
    if a == [] {
      assert a + b == b;
    } else {
      assert (a + b)[1..] == a[1..] + b;
      BelowConcat(a[1..], b, prefix, depth);
    }
  }

  lemma {:induction false} BelowOne(n: Node, prefix: seq<string>, depth: nat)
    ensures Below([n], prefix, depth) == [EntryOf(n, prefix)] + Inside(n, prefix, depth)
  {
    hide Inside, EntryOf;
    assert Below([n][1..], prefix, depth) == [];
  }

  lemma {:induction false} RemoveEverywhere<T>(a: seq<T>, b: seq<T>, i: nat)
    requires multiset(a) == multiset(b) && a != [] && i < |b| && b[i] == a[0]
    ensures multiset(a[1..]) == multiset(b[..i] + b[i + 1..])
  {
    assert a == [a[0]] + a[1..];
    assert b == b[..i] + ([b[i]] + b[i + 1..]);
    assert multiset(a[1..]) == multiset(a) - multiset{a[0]};
  }

  lemma {:induction false} PlaceOf<T>(x: T, a: seq<T>, b: seq<T>) returns (i: nat)
    requires multiset(a) == multiset(b) && x in a
    ensures i < |b| && b[i] == x
  {
    assert x in multiset(b);
    i :| 0 <= i < |b| && b[i] == x;
  }

  lemma {:induction false} BelowMove(p: seq<Node>, x: seq<Node>, q: seq<Node>, prefix: seq<string>, depth: nat)
    ensures multiset(Below(p + (x + q), prefix, depth)) ==
        multiset(Below(x, prefix, depth)) + multiset(Below(p + q, prefix, depth))
  {
    hide Below;
    BelowConcat(p, x + q, prefix, depth);
    BelowConcat(x, q, prefix, depth);
    BelowConcat(p, q, prefix, depth);
  }

  lemma {:induction false} BelowTakenOut(b: seq<Node>, i: nat, prefix: seq<string>, depth: nat)
    requires i < |b|
    ensures multiset(Below(b, prefix, depth)) ==
            multiset(Below([b[i]], prefix, depth)) + multiset(Below(b[..i] + b[i + 1..], prefix, depth))
  {
    hide Below;
    assert b == b[..i] + ([b[i]] + b[i + 1..]);
    BelowMove(b[..i], [b[i]], b[i + 1..], prefix, depth);
  }

  /** The order in which a directory is read does not matter. */
  lemma {:induction false} BelowAnyOrder(a: seq<Node>, b: seq<Node>, prefix: seq<string>, depth: nat)
    requires multiset(a) == multiset(b)
    ensures multiset(Below(a, prefix, depth)) == multiset(Below(b, prefix, depth))
  {
    hide Below;
    assert |multiset(a)| == |multiset(b)|;
    if a == [] {
      assert b == [];
    } else {
      var i := PlaceOf(a[0], a, b);
      RemoveEverywhere(a, b, i);
      BelowAnyOrder(a[1..], b[..i] + b[i + 1..], prefix, depth);
      BelowTakenOut(a, 0, prefix, depth);
      BelowTakenOut(b, i, prefix, depth);
      assert a[..0] + a[1..] == a[1..];
    }
  }

  lemma {:induction false} OneConserves(n: Node, prefix: seq<string>, depth: nat)
    ensures [EntryOf(n, prefix)] + Pending(SubJob(n, prefix, depth)) == Below([n], prefix, depth)
  {
    hide Below, EntryOf;
    BelowOne(n, prefix, depth);
    if n.Dir? && depth > 1 {
      var job := SubJob(n, prefix, depth)[0];
      assert [job][1..] == [] && Pending([]) == [];
      assert Pending([job]) == Below(n.contents, prefix + [n.name], depth - 1);
    }
  }

  lemma {:induction false} OpeningNone(prefix: seq<string>, depth: nat)
    ensures Listed([], prefix) == [] && SubJobs([], prefix, depth) == [] && Pending([]) == []
    ensures Below([], prefix, depth) == []
  {
  }

  /** Opening a directory turns its pending entries into listed ones and new jobs. */
  lemma {:induction false} OpeningConserves(nodes: seq<Node>, prefix: seq<string>, depth: nat)
    ensures multiset(Listed(nodes, prefix)) + multiset(Pending(SubJobs(nodes, prefix, depth)))
         == multiset(Below(nodes, prefix, depth))
  {
    hide Below, Pending, EntryOf, SubJob;
    if nodes == [] {
      OpeningNone(prefix, depth);
    } else {
      var k := |nodes| - 1;
      var before, n := nodes[..k], nodes[k];
      OpeningConserves(before, prefix, depth);
      BelowConcat(before, [n], prefix, depth);
      OneConserves(n, prefix, depth);
      PendingConcat(SubJobs(before, prefix, depth), SubJob(n, prefix, depth));
      assert nodes == before + [n];
    }
  }

  ghost predicate BlockedBelow(nodes: seq<Node>, depth: nat) {
    exists n :: n in nodes && BlockedInside(n, depth)
  }

  lemma {:induction false} SubJobBlocks(n: Node, prefix: seq<string>, depth: nat)
    ensures AnyBlocked(SubJob(n, prefix, depth)) <==> BlockedInside(n, depth)
  {
    hide Blocked;
    if BlockedInside(n, depth) { assert JobBlocked(SubJob(n, prefix, depth)[0]); }
  }

  lemma {:induction false} OpeningBlocks(nodes: seq<Node>, prefix: seq<string>, depth: nat)
    ensures AnyBlocked(SubJobs(nodes, prefix, depth)) <==> BlockedBelow(nodes, depth)
  {
    hide Blocked, BlockedInside, AnyBlocked, SubJob;
    if nodes == [] {
      NoneBlocked();
    } else {
      var k := |nodes| - 1;
      var before, n := nodes[..k], nodes[k];
      OpeningBlocks(before, prefix, depth);
      AnyBlockedConcat(SubJobs(before, prefix, depth), SubJob(n, prefix, depth));
      SubJobBlocks(n, prefix, depth);
      assert nodes == before + [n];
    }
  }

  lemma {:induction false} AnyBlockedConcat(a: seq<Job>, b: seq<Job>)
    ensures AnyBlocked(a + b) <==> AnyBlocked(a) || AnyBlocked(b)
  {
    if AnyBlocked(a) {
      var i :| 0 <= i < |a| && JobBlocked(a[i]);
      assert JobBlocked((a + b)[i]);
    } else if AnyBlocked(b) {
      var i :| 0 <= i < |b| && JobBlocked(b[i]);
      assert JobBlocked((a + b)[|a| + i]);
    }
  }

  /** Taking one directory off the queue and putting back its subdirectories keeps the
      total of listed and pending entries, keeps whether anything is unreadable, and
      leaves less to do. */
  lemma {:induction false} OneDirectory(job: Job, rest: seq<Job>, dirEntries: seq<Node>)
    requires job.readable && multiset(dirEntries) == multiset(job.nodes)
    ensures var next := rest + SubJobs(dirEntries, job.prefix, job.depth);
      && multiset(Listed(dirEntries, job.prefix)) + multiset(Pending(next)) == multiset(Pending([job] + rest))
      && (AnyBlocked(next) <==> AnyBlocked([job] + rest))
      && |Pending(next)| + |next| < |Pending([job] + rest)| + |[job] + rest|
  {
    hide Below, EntryOf, Listed, SubJobs, AnyBlocked, Pending;
    var next := rest + SubJobs(dirEntries, job.prefix, job.depth);
    BelowAnyOrder(dirEntries, job.nodes, job.prefix, job.depth);
    OpeningConserves(dirEntries, job.prefix, job.depth);
    PendingConcat(rest, SubJobs(dirEntries, job.prefix, job.depth));
    PendingConcat([job], rest);
    PendingOne(job);
    JobOpens(job, dirEntries);
    AnyBlockedConcat(rest, SubJobs(dirEntries, job.prefix, job.depth));
    AnyBlockedConcat([job], rest);
    assert |multiset(dirEntries)| == |multiset(job.nodes)|;
    Sizes(Listed(dirEntries, job.prefix), Pending(next), Pending([job] + rest));
  }

  lemma {:induction false} Sizes(a: seq<Entry>, b: seq<Entry>, c: seq<Entry>)
    requires multiset(a) + multiset(b) == multiset(c)
    ensures |a| + |b| == |c|
  {
    assert |multiset(a) + multiset(b)| == |multiset(c)|;
  }

  lemma {:induction false} PendingOne(job: Job)
    ensures Pending([job]) == Below(job.nodes, job.prefix, job.depth)
  {
    assert [job][1..] == [];
    assert Pending([]) == [];
  }

  lemma {:induction false} BlockedByMembers(job: Job)
    requires job.readable
    ensures JobBlocked(job) <==> BlockedBelow(job.nodes, job.depth)
  {
    hide BlockedInside;
    if BlockedBelow(job.nodes, job.depth) {
      var n :| n in job.nodes && BlockedInside(n, job.depth);
      var i :| 0 <= i < |job.nodes| && job.nodes[i] == n;
    }
    if JobBlocked(job) {
      var i :| 0 <= i < |job.nodes| && BlockedInside(job.nodes[i], job.depth);
      assert job.nodes[i] in job.nodes;
    }
  }

  lemma {:induction false} JobOpens(job: Job, dirEntries: seq<Node>)
    requires job.readable && multiset(dirEntries) == multiset(job.nodes)
    ensures AnyBlocked(SubJobs(dirEntries, job.prefix, job.depth)) <==> AnyBlocked([job])
  {
    hide SubJobs, BlockedInside;
    OpeningBlocks(dirEntries, job.prefix, job.depth);
    assert AnyBlocked([job]) <==> JobBlocked([job][0]);
    BlockedByMembers(job);
    assert forall n :: n in dirEntries <==> n in multiset(dirEntries);
    assert forall n :: n in job.nodes <==> n in multiset(job.nodes);
  }

  method OpenDirectory(dirEntries: seq<Node>, prefix: seq<string>, depth: nat, queue0: seq<Job>, entries0: seq<Entry>)
      returns (queue: seq<Job>, entries: seq<Entry>)
    ensures queue == queue0 + SubJobs(dirEntries, prefix, depth)
    ensures entries == entries0 + Listed(dirEntries, prefix)
  {
    hide EntryOf;
    queue, entries := queue0, entries0;
    for i := 0 to |dirEntries|
      invariant entries == entries0 + Listed(dirEntries[..i], prefix)
      invariant queue == queue0 + SubJobs(dirEntries[..i], prefix, depth)
    {
      var n := dirEntries[i];
      assert dirEntries[..i + 1][..i] == dirEntries[..i];
      if n.Dir? && depth > 1 {
        queue := queue + [Job(n.readable, n.contents, prefix + [n.name], depth - 1)];
      }
      entries := entries + [EntryOf(n, prefix)];
    }
    assert dirEntries[..|dirEntries|] == dirEntries;
  }

  /** The walk ends, fails exactly when it must open an unreadable directory, and otherwise
      collects exactly the entries of the recursive listing. */
  method CollectDirEntries(readable: bool, nodes: seq<Node>, depth: nat) returns (r: Result<seq<Entry>>)
    ensures r.Err? <==> Blocked(readable, nodes, depth)
    ensures r.Err? ==> r.error == Unreadable
    ensures r.Ok? ==> multiset(r.value) == multiset(Below(nodes, [], depth))
  {
    hide Below, Listed, SubJobs, AnyBlocked, Pending, Blocked;
    var queue := [Job(readable, nodes, [], depth)];
    var entries: seq<Entry> := [];
    PendingOne(queue[0]);
    BlockedOne(queue[0]);
    while queue != []
      invariant multiset(entries) + multiset(Pending(queue)) == multiset(Below(nodes, [], depth))
      invariant AnyBlocked(queue) <==> Blocked(readable, nodes, depth)
      decreases |Pending(queue)| + |queue|
    {
      var job := queue[0];
      ghost var was := queue;
      queue := queue[1..];
      assert was == [job] + queue;
      if !job.readable {
        HeadBlocked(job, queue);
        return Err(Unreadable);
      }
      var prefix := job.prefix;
      var dirEntries := SortBy(job.nodes, (n: Node) => SortKey(prefix + [n.name]));
      OneDirectory(job, queue, dirEntries);
      queue, entries := OpenDirectory(dirEntries, prefix, job.depth, queue, entries);
    }
    NoneBlocked();
    return Ok(entries);
  }

  lemma {:induction false} HeadBlocked(job: Job, rest: seq<Job>)
    requires !job.readable
    ensures AnyBlocked([job] + rest)
  {
    assert JobBlocked(([job] + rest)[0]);
  }

  lemma {:induction false} BlockedOne(job: Job)
    ensures AnyBlocked([job]) <==> Blocked(job.readable, job.nodes, job.depth)
  {
    assert AnyBlocked([job]) <==> JobBlocked([job][0]);
  }

  lemma {:induction false} NoneBlocked()
    ensures !AnyBlocked([]) && Pending([]) == []
  {
  }

  // ---- Pages -------------------------------------------------------------

  /** An empty directory has its own answer; a page says how many entries it shows when
      more follow. */
  datatype Slice = Empty | Page(entries: seq<Entry>, more: Option<nat>)

  /** A listing: all entries, sorted by key.  Equal keys may come in any order: the sort is
      unstable, and a directory need not be read in the same order twice. */
  ghost predicate IsListing(sorted: seq<Entry>, nodes: seq<Node>, depth: nat) {
    multiset(sorted) == multiset(Below(nodes, [], depth)) && Sorted(sorted, EntryName)
  }

  function PageAt(sorted: seq<Entry>, offset: nat, limit: nat): Result<Slice>
    requires offset >= 1
  {
    if sorted == [] then Ok(Empty)
    else if offset > |sorted| then Err(OffsetTooLarge)
    else
      var start := offset - 1;
      var end := if limit <= |sorted| - start then start + limit else |sorted|;
      Ok(Page(sorted[start..end], if end < |sorted| then Some(end - start) else None))
  }

  method ListDir(readable: bool, nodes: seq<Node>, offset: nat, limit: nat, depth: nat) returns (r: Result<Slice>)
    ensures offset == 0 ==> r == Err(ZeroOffset)
    ensures offset > 0 && limit == 0 ==> r == Err(ZeroLimit)
    ensures offset > 0 && limit > 0 && depth == 0 ==> r == Err(ZeroDepth)
    ensures offset > 0 && limit > 0 && depth > 0 && Blocked(readable, nodes, depth) ==> r == Err(Unreadable)
    ensures offset > 0 && limit > 0 && depth > 0 && !Blocked(readable, nodes, depth)
      ==> exists sorted :: IsListing(sorted, nodes, depth) && r == PageAt(sorted, offset, limit)
  {
    hide Blocked, Below, PageAt;
    if offset == 0 { return Err(ZeroOffset); }
    if limit == 0 { return Err(ZeroLimit); }
    if depth == 0 { return Err(ZeroDepth); }
    var collected := CollectDirEntries(readable, nodes, depth);
    if collected.Err? { return Err(collected.error); }
    var sorted := SortBy(collected.value, EntryName);
    assert IsListing(sorted, nodes, depth);
    r := PageAt(sorted, offset, limit);
  }

  /** Entries with the same key are the same. */
  ghost predicate NoClash(entries: seq<Entry>) {
    forall a, b :: a in entries && b in entries && a.name == b.name ==> a == b
  }

  lemma {:induction false} TailsKeep(s: seq<Entry>)
    requires s != [] && Sorted(s, EntryName)
    ensures Sorted(s[1..], EntryName)
    ensures NoClash(s) ==> NoClash(s[1..])
  {
    assert forall i :: 0 <= i < |s[1..]| ==> s[1..][i] == s[i + 1];
  }

  lemma {:induction false} SameListing(s: seq<Entry>, t: seq<Entry>)
    requires multiset(s) == multiset(t) && Sorted(s, EntryName) && Sorted(t, EntryName) && NoClash(s)
    ensures s == t
  {
    hide NoClash, Sorted, EntryName;
    SameLength(s, t);
    if s != [] {
      HeadsMeet(s, t);
      SameTails(s, t);
      TailsKeep(s);
      TailsKeep(t);
      SameListing(s[1..], t[1..]);
      assert s == [s[0]] + s[1..] && t == [t[0]] + t[1..];
    }
  }

  lemma {:induction false} SameLength<T>(s: seq<T>, t: seq<T>)
    requires multiset(s) == multiset(t)
    ensures |s| == |t|
  {
    assert |multiset(s)| == |multiset(t)|;
  }

  lemma {:induction false} SameTails<T>(s: seq<T>, t: seq<T>)
    requires multiset(s) == multiset(t) && s != [] && t != [] && s[0] == t[0]
    ensures multiset(s[1..]) == multiset(t[1..])
  {
    RemoveEverywhere(s, t, 0);
    assert t[..0] + t[1..] == t[1..];
  }

  lemma {:induction false} HeadsMeet(s: seq<Entry>, t: seq<Entry>)
    requires s != [] && t != [] && multiset(s) == multiset(t)
    requires Sorted(s, EntryName) && Sorted(t, EntryName) && NoClash(s)
    ensures s[0] == t[0]
  {
    var i := PlaceOf(s[0], s, t);
    var j := PlaceOf(t[0], t, s);
    assert Leq(EntryName(t[0]), EntryName(t[i])) || i == 0;
    assert Leq(EntryName(s[0]), EntryName(s[j])) || j == 0;
    LeqTotal(s[0].name, t[0].name);
  }

  /** Two calls see the same listing, in whatever order equal keys come, exactly when
      entries with equal keys are equal. */
  lemma {:induction false} ListingUniqueExactly(nodes: seq<Node>, depth: nat)
    ensures NoClash(Below(nodes, [], depth)) <==>
      forall s, t :: IsListing(s, nodes, depth) && IsListing(t, nodes, depth) ==> s == t
  {
    hide Below, NoClash, Sorted;
    var all := Below(nodes, [], depth);
    if NoClash(all) {
      forall s, t | IsListing(s, nodes, depth) && IsListing(t, nodes, depth) ensures s == t {
        SameMembers(s, all);
        SameListing(s, t);
      }
    } else {
      var s, t := TwoOrders(all);
      assert IsListing(s, nodes, depth) && IsListing(t, nodes, depth);
    }
  }

  lemma {:induction false} TwoOrders(all: seq<Entry>) returns (s: seq<Entry>, t: seq<Entry>)
    requires !NoClash(all)
    ensures multiset(s) == multiset(t) == multiset(all) && s != t
    ensures Sorted(s, EntryName) && Sorted(t, EntryName)
  {
    hide Leq, NoClash, Sorted;
    s := SortBy(all, EntryName);
    SameMembers(s, all);
    var i, j := FindClash(s);
    if j < i { i, j := j, i; }
    Exchanged(s, i, j);
    t := s[i := s[j]][j := s[i]];
    assert s[i] != t[i];
  }

  lemma {:induction false} SameMembers(s: seq<Entry>, t: seq<Entry>)
    requires multiset(s) == multiset(t)
    ensures NoClash(s) <==> NoClash(t)
  {
    assert forall e :: e in s <==> e in multiset(s);
    assert forall e :: e in t <==> e in multiset(t);
  }

  lemma {:induction false} FindClash(s: seq<Entry>) returns (i: nat, j: nat)
    requires !NoClash(s)
    ensures i < |s| && j < |s| && s[i] != s[j] && s[i].name == s[j].name
  {
    var a, b :| a in s && b in s && a.name == b.name && a != b;
    i :| 0 <= i < |s| && s[i] == a;
    j :| 0 <= j < |s| && s[j] == b;
  }

  /** The answers to calls that page on from `offset`, each over a listing of its own. */
  ghost predicate Paged(nodes: seq<Node>, depth: nat, offset: nat, limits: seq<nat>, pages: seq<Slice>)
    requires offset >= 1
    decreases |limits|
  {
    && |limits| == |pages|
    && (limits != [] ==>
      && limits[0] > 0
      && (exists s :: IsListing(s, nodes, depth) && PageAt(s, offset, limits[0]) == Ok(pages[0]))
      && Paged(nodes, depth, offset + limits[0], limits[1..], pages[1..]))
  }

  ghost function Shown(pages: seq<Slice>): seq<Entry> {
    if pages == [] then []
    else (if pages[0].Page? then pages[0].entries else []) + Shown(pages[1..])
  }

  lemma {:induction false} PageIs(sorted: seq<Entry>, offset: nat, limit: nat, page: Slice)
    requires offset >= 1 && sorted != [] && PageAt(sorted, offset, limit) == Ok(page)
    ensures page.Page? && offset <= |sorted| && page.entries <= sorted[offset - 1..]
    ensures page.more.None? <==> page.entries == sorted[offset - 1..]
    ensures offset + limit <= |sorted| ==> sorted[offset - 1..] == page.entries + sorted[offset + limit - 1..]
  {
  }

  /** Consecutive pages of any sizes put together are the listing from the first offset on,
      and the last page says nothing more follows exactly when the listing is complete. */
  lemma {:induction false} PagesConcatenate(nodes: seq<Node>, depth: nat, offset: nat, limits: seq<nat>,
      pages: seq<Slice>, sorted: seq<Entry>)
    requires NoClash(Below(nodes, [], depth)) && IsListing(sorted, nodes, depth) && sorted != []
    requires offset >= 1 && limits != [] && Paged(nodes, depth, offset, limits, pages)
    ensures offset <= |sorted| && Shown(pages) <= sorted[offset - 1..]
    ensures pages[|pages| - 1].Page?
    ensures pages[|pages| - 1].more.None? <==> Shown(pages) == sorted[offset - 1..]
    decreases |limits|
  {
    hide Below, IsListing, NoClash, PageAt;
    ListingUniqueExactly(nodes, depth);
    assert PageAt(sorted, offset, limits[0]) == Ok(pages[0]);
    PageIs(sorted, offset, limits[0], pages[0]);
    var rest := Shown(pages[1..]);
    if |limits| == 1 {
      assert rest == [];
    } else {
      PagesConcatenate(nodes, depth, offset + limits[0], limits[1..], pages[1..], sorted);
      assert pages[1..][|pages| - 2] == pages[|pages| - 1];
    }
  }

  /** The last answer says that nothing more follows. */
  ghost predicate Complete(pages: seq<Slice>) {
    pages != [] && pages[|pages| - 1].Page? && pages[|pages| - 1].more.None?
  }

  lemma {:induction false} SomethingListed(nodes: seq<Node>, depth: nat, offset: nat, limits: seq<nat>,
      pages: seq<Slice>)
    requires offset >= 1 && Paged(nodes, depth, offset, limits, pages) && Complete(pages)
    ensures Below(nodes, [], depth) != []
    decreases |limits|
  {
    hide Below;
    if |limits| == 1 {
      var s :| IsListing(s, nodes, depth) && PageAt(s, offset, limits[0]) == Ok(pages[0]);
      assert multiset(s) != multiset{};
    } else {
      assert pages[1..][|pages| - 2] == pages[|pages| - 1];
      SomethingListed(nodes, depth, offset + limits[0], limits[1..], pages[1..]);
    }
  }

  lemma {:induction false} FirstAndLast(s: seq<Entry>, t: seq<Entry>, n: nat)
    requires 0 < n < |s| == |t|
    ensures PageAt(s, 1, n) == Ok(Page(s[..n], Some(n))) && PageAt(t, n + 1, |s| - n) == Ok(Page(t[n..], None))
  {
    assert s[0..n] == s[..n] && t[n..|s|] == t[n..];
  }

  lemma {:induction false} TwoPages(nodes: seq<Node>, depth: nat, s: seq<Entry>, t: seq<Entry>, n: nat)
      returns (limits: seq<nat>, pages: seq<Slice>)
    requires IsListing(s, nodes, depth) && IsListing(t, nodes, depth) && 0 < n < |s| == |t|
    ensures Paged(nodes, depth, 1, limits, pages) && Complete(pages) && Shown(pages) == s[..n] + t[n..]
  {
    hide IsListing, PageAt;
    limits := [n, |s| - n];
    pages := [Page(s[..n], Some(n)), Page(t[n..], None)];
    assert PageAt(s, 1, n) == Ok(pages[0]) && PageAt(t, n + 1, |s| - n) == Ok(pages[1]) by { FirstAndLast(s, t, n); }
    assert limits[1..] == [|s| - n] && pages[1..] == [pages[1]] && limits[1..][1..] == [] && pages[1..][1..] == [];
    assert Paged(nodes, depth, n + 1 + limits[1], [], []);
    assert Paged(nodes, depth, n + 1, limits[1..], pages[1..]);
    assert Shown(pages[1..]) == t[n..] by { assert Shown(pages[1..][1..]) == []; }
  }

  /** Exchanging two entries with one key keeps a listing in order; what a cut between the
      two then shows. */
  lemma {:induction false} Exchanged(s: seq<Entry>, i: nat, j: nat)
    requires Sorted(s, EntryName) && i < j < |s| && s[i].name == s[j].name
    ensures var t := s[i := s[j]][j := s[i]];
      && multiset(t) == multiset(s) && Sorted(t, EntryName)
      && multiset(s[..i + 1] + t[i + 1..]) + multiset{s[j]} == multiset(s) + multiset{s[i]}
  {
    hide Leq;
    var t := s[i := s[j]][j := s[i]];
    assert forall k :: 0 <= k < |s| ==> EntryName(t[k]) == EntryName(s[k]);
    assert s[..i + 1] + t[i + 1..] == s[j := s[i]];
  }

  /** Two entries with one key: some answers, complete by their own word, show one of the
      two once too often and the other once too few. */
  lemma {:induction false} ClashSplitsPages(nodes: seq<Node>, depth: nat)
      returns (limits: seq<nat>, pages: seq<Slice>, twice: Entry, lost: Entry)
    requires !NoClash(Below(nodes, [], depth))
    ensures Paged(nodes, depth, 1, limits, pages) && Complete(pages)
    ensures var all := Below(nodes, [], depth);
      && twice in all && lost in all && twice != lost && twice.name == lost.name
      && multiset(Shown(pages)) + multiset{lost} == multiset(all) + multiset{twice}
  {
    hide Below, Leq, NoClash, Paged, Shown, Sorted;
    var all := Below(nodes, [], depth);
    var s := SortBy(all, EntryName);
    SameMembers(s, all);
    var i, j := FindClash(s);
    if j < i { i, j := j, i; }
    Exchanged(s, i, j);
    var t := s[i := s[j]][j := s[i]];
    limits, pages := TwoPages(nodes, depth, s, t, i + 1);
    twice, lost := s[i], s[j];
    assert s[i] in multiset(s) && s[j] in multiset(s);
  }

  /** Complete answers show every entry exactly as often as it is there, in whatever
      order equal keys come and however the pages are cut, if and only if no two entries
      share a key. */
  lemma {:induction false} PagesCompleteExactly(nodes: seq<Node>, depth: nat)
    ensures NoClash(Below(nodes, [], depth)) <==>
      forall limits, pages :: Paged(nodes, depth, 1, limits, pages) && Complete(pages)
        ==> multiset(Shown(pages)) == multiset(Below(nodes, [], depth))
  {
    hide Below, Leq, NoClash, Paged, Shown;
    var all := Below(nodes, [], depth);
    if NoClash(all) {
      forall limits, pages | Paged(nodes, depth, 1, limits, pages) && Complete(pages)
        ensures multiset(Shown(pages)) == multiset(all)
      {
        SomethingListed(nodes, depth, 1, limits, pages);
        var sorted := SortBy(all, EntryName);
        assert sorted != [] by { assert all[0] in multiset(sorted); }
        assert |limits| == |pages| by { PagedLength(nodes, depth, 1, limits, pages); }
        PagesConcatenate(nodes, depth, 1, limits, pages, sorted);
        assert sorted[0..] == sorted;
      }
    } else {
      var limits, pages, twice, lost := ClashSplitsPages(nodes, depth);
      assert (multiset(Shown(pages)) + multiset{lost})[lost] == (multiset(all) + multiset{twice})[lost];
    }
  }

  lemma {:induction false} PagedLength(nodes: seq<Node>, depth: nat, offset: nat, limits: seq<nat>, pages: seq<Slice>)
    requires offset >= 1 && Paged(nodes, depth, offset, limits, pages)
    ensures |limits| == |pages|
  {
  }

  // ---- Trees whose keys are distinct -------------------------------------

  /** An ordinary file name: not empty, and no separator in it. */
  predicate PlainName(name: string) {
    name != "" && '/' !in name && '\\' !in name
  }

  /** Ordinary, distinct names in every directory. */
  ghost predicate PlainTree(nodes: seq<Node>)
    decreases nodes
  {
    && (forall i :: 0 <= i < |nodes| ==> PlainName(nodes[i].name) && PlainNode(nodes[i]))
    && (forall i, j :: 0 <= i < j < |nodes| ==> nodes[i].name != nodes[j].name)
  }

  ghost predicate PlainNode(n: Node)
    decreases n
  {
    n.Dir? ==> PlainTree(n.contents)
  }

  /** The node at the end of a path of names, one step and then the others. */
  ghost predicate Locates(nodes: seq<Node>, path: seq<string>, n: Node)
    decreases |path|, 0
  {
    path != [] && exists m :: m in nodes && m.name == path[0] && LocatesIn(m, path[1..], n)
  }

  ghost predicate LocatesIn(m: Node, path: seq<string>, n: Node)
    decreases |path|, 1
  {
    if path == [] then m == n else m.Dir? && Locates(m.contents, path, n)
  }

  /** `e` is the entry of the node at `path` under `prefix`. */
  ghost predicate IsEntryAt(nodes: seq<Node>, prefix: seq<string>, path: seq<string>, e: Entry) {
    exists n :: Locates(nodes, path, n) && n.name == path[|path| - 1] && e == EntryOf(n, prefix + path[..|path| - 1])
  }

  lemma {:induction false} EntryHere(nodes: seq<Node>, prefix: seq<string>, n: Node)
    requires n in nodes
    ensures IsEntryAt(nodes, prefix, [n.name], EntryOf(n, prefix))
  {
    var path := [n.name];
    assert path[1..] == [] && LocatesIn(n, path[1..], n);
    assert Locates(nodes, path, n);
    assert prefix + path[..0] == prefix;
  }

  lemma {:induction false} EntryDeeper(nodes: seq<Node>, prefix: seq<string>, n: Node, rest: seq<string>, e: Entry)
    requires n in nodes && n.Dir? && rest != [] && IsEntryAt(n.contents, prefix + [n.name], rest, e)
    ensures IsEntryAt(nodes, prefix, [n.name] + rest, e)
  {
    hide EntryOf;
    var path := [n.name] + rest;
    var m :| Locates(n.contents, rest, m) && m.name == rest[|rest| - 1]
      && e == EntryOf(m, prefix + [n.name] + rest[..|rest| - 1]);
    assert path[1..] == rest && LocatesIn(n, path[1..], m);
    assert Locates(nodes, path, m);
    assert prefix + [n.name] + rest[..|rest| - 1] == prefix + path[..|path| - 1];
  }

  lemma {:induction false} EntryLater(nodes: seq<Node>, prefix: seq<string>, path: seq<string>, e: Entry)
    requires nodes != [] && path != [] && IsEntryAt(nodes[1..], prefix, path, e)
    ensures IsEntryAt(nodes, prefix, path, e)
  {
    hide EntryOf;
    var m :| Locates(nodes[1..], path, m) && m.name == path[|path| - 1] && e == EntryOf(m, prefix + path[..|path| - 1]);
    var first :| first in nodes[1..] && first.name == path[0] && LocatesIn(first, path[1..], m);
    assert first in nodes;
    assert Locates(nodes, path, m);
  }

  /** Every listed entry is the entry of the node at some path of at most `depth` names. */
  lemma {:induction false} EntriesHavePaths(nodes: seq<Node>, prefix: seq<string>, depth: nat, e: Entry)
      returns (path: seq<string>)
    requires e in Below(nodes, prefix, depth)
    ensures path != [] && (|path| == 1 || |path| <= depth) && IsEntryAt(nodes, prefix, path, e)
    decreases nodes
  {
    hide EntryOf, IsEntryAt;
    var n := nodes[0];
    if e == EntryOf(n, prefix) {
      path := [n.name];
      EntryHere(nodes, prefix, n);
    } else if e in Inside(n, prefix, depth) {
      var rest := EntriesHavePaths(n.contents, prefix + [n.name], depth - 1, e);
      path := [n.name] + rest;
      EntryDeeper(nodes, prefix, n, rest, e);
    } else {
      path := EntriesHavePaths(nodes[1..], prefix, depth, e);
      EntryLater(nodes, prefix, path, e);
    }
  }

  lemma {:induction false} BelowMember(nodes: seq<Node>, m: Node, prefix: seq<string>, depth: nat, e: Entry)
    requires m in nodes && (e == EntryOf(m, prefix) || e in Inside(m, prefix, depth))
    ensures e in Below(nodes, prefix, depth)
  {
    hide EntryOf, Below, Inside;
    var i :| 0 <= i < |nodes| && nodes[i] == m;
    BelowTakenOut(nodes, i, prefix, depth);
    BelowOne(m, prefix, depth);
    assert e in Below([m], prefix, depth);
    assert e in multiset(Below(nodes, prefix, depth));
  }

  /** And every node at such a path is listed. */
  lemma {:induction false} PathsAreListed(nodes: seq<Node>, prefix: seq<string>, depth: nat, path: seq<string>, n: Node)
    requires Locates(nodes, path, n) && (|path| == 1 || |path| <= depth)
    ensures EntryOf(n, prefix + path[..|path| - 1]) in Below(nodes, prefix, depth)
    decreases |path|
  {
    hide EntryOf, Below;
    var m :| m in nodes && m.name == path[0] && LocatesIn(m, path[1..], n);
    var e := EntryOf(n, prefix + path[..|path| - 1]);
    if path[1..] == [] {
      assert prefix + path[..0] == prefix;
    } else {
      PathsAreListed(m.contents, prefix + [m.name], depth - 1, path[1..], n);
      assert prefix + [m.name] + path[1..][..|path| - 2] == prefix + path[..|path| - 1];
    }
    BelowMember(nodes, m, prefix, depth, e);
  }

  /** In a plain tree a path leads to one node. */
  lemma {:induction false} PathIsUnique(nodes: seq<Node>, path: seq<string>, m: Node, n: Node)
    requires PlainTree(nodes) && Locates(nodes, path, m) && Locates(nodes, path, n)
    ensures m == n
    decreases |path|
  {
    var a :| a in nodes && a.name == path[0] && LocatesIn(a, path[1..], m);
    var b :| b in nodes && b.name == path[0] && LocatesIn(b, path[1..], n);
    var i :| 0 <= i < |nodes| && nodes[i] == a;
    var j :| 0 <= j < |nodes| && nodes[j] == b;
    assert i == j;
    assert PlainNode(nodes[i]);
    if path[1..] != [] { PathIsUnique(a.contents, path[1..], m, n); }
  }

  lemma {:induction false} PathIsPlain(nodes: seq<Node>, path: seq<string>, n: Node)
    requires PlainTree(nodes) && Locates(nodes, path, n)
    ensures forall i :: 0 <= i < |path| ==> PlainName(path[i])
    decreases |path|
  {
    var a :| a in nodes && a.name == path[0] && LocatesIn(a, path[1..], n);
    var i :| 0 <= i < |nodes| && nodes[i] == a;
    assert PlainName(nodes[i].name) && PlainNode(nodes[i]);
    if path[1..] != [] { PathIsPlain(a.contents, path[1..], n); }
    assert path == [path[0]] + path[1..];
  }

  /** Joining plain names loses nothing. */
  lemma {:induction false} JoinIsInjective(p: seq<string>, q: seq<string>)
    requires p != [] && q != [] && Join(p) == Join(q)
    requires forall i :: 0 <= i < |p| ==> PlainName(p[i])
    requires forall i :: 0 <= i < |q| ==> PlainName(q[i])
    ensures p == q
  {
    FirstName(p);
    FirstName(q);
    assert |p[0]| == |q[0]|;
    assert p[0] == Join(p)[..|p[0]|] == q[0];
    assert |p| == 1 <==> |q| == 1;
    if |p| > 1 && |q| > 1 {
      assert Join(p)[|p[0]| + 1..] == Join(p[1..]);
      assert Join(q)[|q[0]| + 1..] == Join(q[1..]);
      JoinIsInjective(p[1..], q[1..]);
    }
    assert p[1..] == q[1..];
    assert p == [p[0]] + p[1..] && q == [q[0]] + q[1..];
  }

  /** The first name is the text up to the first separator. */
  lemma {:induction false} FirstName(p: seq<string>)
    requires p != [] && PlainName(p[0])
    ensures p[0] <= Join(p) && forall i :: 0 <= i < |p[0]| ==> Join(p)[i] != '/'
    ensures |p| == 1 ==> |Join(p)| == |p[0]|
    ensures |p| > 1 ==> |p[0]| < |Join(p)| && Join(p)[|p[0]|] == '/'
  {
    assert forall i :: 0 <= i < |p[0]| ==> Join(p)[i] == p[0][i] && p[0][i] in p[0];
    if |p| > 1 { assert Join(p)[|p[0]|] == ("/" + Join(p[1..]))[0]; }
  }

  lemma {:induction false} SlashesOf(s: string)
    ensures |Slashes(s)| == |s|
    ensures '\\' !in s ==> Slashes(s) == s
  {
    if s != "" {
      SlashesOf(s[1..]);
      assert s == [s[0]] + s[1..];
    }
  }

  lemma {:induction false} PlainJoin(p: seq<string>)
    requires forall i :: 0 <= i < |p| ==> PlainName(p[i])
    ensures '\\' !in Join(p)
  {
    if |p| > 1 { PlainJoin(p[1..]); }
  }

  /** Paths within the length limit. */
  ghost predicate ShortPaths(nodes: seq<Node>, depth: nat) {
    forall path, n :: Locates(nodes, path, n) && (|path| == 1 || |path| <= depth) ==>
        ByteLength(Join(path)) <= MAX_ENTRY_LENGTH
  }

  /** With ordinary, distinct file names and paths within the length limit all keys differ,
      so consecutive pages make up one listing. */
  lemma {:induction false} PlainTreesPage(nodes: seq<Node>, depth: nat)
    requires PlainTree(nodes) && ShortPaths(nodes, depth)
    ensures NoClash(Below(nodes, [], depth))
  {
    var all := Below(nodes, [], depth);
    forall a, b | a in all && b in all && a.name == b.name ensures a == b {
      var p := EntriesHavePaths(nodes, [], depth, a);
      var q := EntriesHavePaths(nodes, [], depth, b);
      var m := KeyIsPath(nodes, depth, p, a);
      var n := KeyIsPath(nodes, depth, q, b);
      PathIsPlain(nodes, p, m);
      PathIsPlain(nodes, q, n);
      JoinIsInjective(p, q);
      PathIsUnique(nodes, p, m, n);
    }
  }

  lemma {:induction false} KeyIsPath(nodes: seq<Node>, depth: nat, path: seq<string>, e: Entry) returns (n: Node)
    requires PlainTree(nodes) && ShortPaths(nodes, depth)
    requires path != [] && (|path| == 1 || |path| <= depth) && IsEntryAt(nodes, [], path, e)
    ensures Locates(nodes, path, n) && e == EntryOf(n, path[..|path| - 1]) && e.name == Join(path)
  {
    n :| Locates(nodes, path, n) && n.name == path[|path| - 1] && e == EntryOf(n, [] + path[..|path| - 1]);
    assert [] + path[..|path| - 1] == path[..|path| - 1];
    assert path[..|path| - 1] + [n.name] == path;
    PathIsPlain(nodes, path, n);
    PlainJoin(path);
    SlashesOf(Join(path));
    TakeBytesFits(Join(path), MAX_ENTRY_LENGTH);
  }

  /** A file named `a\b` beside a directory `a` that holds a `b`: two entries, one key, and
      pages that show one of them twice and the other not at all. */
  lemma {:induction false} BackslashClashes() returns (limits: seq<nat>, pages: seq<Slice>, twice: Entry, lost: Entry)
    ensures var nodes := [File("a\\b", 1), Dir("a", true, [File("b", 2)])];
      var odd, inner := Entry("a/b", "a\\b", 0, Regular, Some(1)), Entry("a/b", "b", 1, Regular, Some(2));
      && Below(nodes, [], 2) == [odd, Entry("a", "a", 0, Directory, None), inner]
      && (twice, lost) in {(odd, inner), (inner, odd)}
      && Paged(nodes, 2, 1, limits, pages) && Complete(pages)
      && multiset(Shown(pages)) + multiset{lost} == multiset(Below(nodes, [], 2)) + multiset{twice}
  {
    hide Below, Paged, Shown, Complete;
    var nodes := [File("a\\b", 1), Dir("a", true, [File("b", 2)])];
    OddTree();
    var all := Below(nodes, [], 2);
    assert !NoClash(all) by { assert all[0] in all && all[2] in all; }
    limits, pages, twice, lost := ClashSplitsPages(nodes, 2);
    assert all[1].name == "a";
  }

  lemma {:induction false} OddTree()
    ensures Below([File("a\\b", 1), Dir("a", true, [File("b", 2)])], [], 2) ==
      [Entry("a/b", "a\\b", 0, Regular, Some(1)), Entry("a", "a", 0, Directory, None),
       Entry("a/b", "b", 1, Regular, Some(2))]
  {
    hide SortKey;
    var file, inner := File("a\\b", 1), File("b", 2);
    var dir := Dir("a", true, [inner]);
    assert [file, dir] == [file] + [dir];
    BelowConcat([file], [dir], [], 2);
    BelowOne(file, [], 2);
    BelowOne(dir, [], 2);
    BelowOne(inner, [] + ["a"], 1);
    assert [] + ["a"] == ["a"] && [] + ["a\\b"] == ["a\\b"];
    OddNames();
  }

  lemma {:induction false} OddNames()
    ensures SortKey(["a\\b"]) == SortKey(["a"] + ["b"]) == "a/b" && SortKey(["a"]) == "a"
    ensures TakeBytes("a\\b", MAX_ENTRY_LENGTH) == "a\\b" && TakeBytes("a", MAX_ENTRY_LENGTH) == "a"
    ensures TakeBytes("b", MAX_ENTRY_LENGTH) == "b"
  {
    assert (["a"] + ["b"])[1..] == ["b"];
    assert Join(["a"] + ["b"]) == "a/b";
    assert "a\\b"[1..] == "\\b" && "\\b"[1..] == "b" && "b"[1..] == "" && "a"[1..] == "";
    assert "a/b"[1..] == "/b" && "/b"[1..] == "b";
    SlashesOf("a/b");
    SlashesOf("a");
    ShortFits("a/b");
    ShortFits("a\\b");
    ShortFits("a");
    ShortFits("b");
  }

  lemma {:induction false} ShortFits(s: string)
    requires |s| <= 100
    ensures TakeBytes(s, MAX_ENTRY_LENGTH) == s
  {
    AtMostFour(s);
    TakeBytesFits(s, MAX_ENTRY_LENGTH);
  }

  lemma {:induction false} AtMostFour(s: string)
    ensures ByteLength(s) <= 4 * |s|
  {
    if s != "" { AtMostFour(s[1..]); }
  }
}
