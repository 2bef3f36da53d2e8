// The JSONL session store at byte level, and what survives a crash at any byte of an
// append (grain-agent-harness/src/session_jsonl.rs).
module JsonlStore {
  import opened Messages
  import opened Bytes
  import opened SessionTree

  // serde_json, and the trimming and blank-line test around it: any encoder whose lines
  // hold no raw newline (RFC 8259, section 7, escapes it inside strings) and whose parser
  // inverts it. On a blank or corrupt line the parser yields nothing.
  datatype Codec = Codec(encode: Entry -> seq<byte>, parseLine: seq<byte> -> Option<Entry>)

  ghost predicate Faithful(codec: Codec) {
    forall e :: NEWLINE !in codec.encode(e) && codec.parseLine(codec.encode(e)) == Some(e)
  }

  // ---- Bytes and lines -------------------------------------------------------------------

  // Start of the line that position k is in: just after the newline before it.
  function LineStart(raw: seq<byte>, k: nat): (m: nat)
    requires k <= |raw|
    ensures m <= k && (m == 0 || raw[m - 1] == NEWLINE)
  {
    if k == 0 || raw[k - 1] == NEWLINE then k else LineStart(raw, k - 1)
  }

  // Length of the part of the file that ends in a newline; what follows is a torn line.
  function CompleteLen(raw: seq<byte>): (n: nat)
    ensures n <= |raw|
  {
    LineStart(raw, |raw|)
  }

  predicate EndsComplete(raw: seq<byte>) {
    raw == [] || raw[|raw| - 1] == NEWLINE
  }

  function ParsedLine(codec: Codec, line: seq<byte>): seq<Entry> {
    match codec.parseLine(line)
    case Some(e) => [e]
    case None => []
  }

  // The entries of the lines that end before n, lines that do not parse skipped.
  function ParsedUpTo(codec: Codec, raw: seq<byte>, n: nat): seq<Entry>
    requires n <= |raw|
  {
    if n == 0 then []
    else if raw[n - 1] != NEWLINE then ParsedUpTo(codec, raw, n - 1)
    else ParsedUpTo(codec, raw, n - 1) + ParsedLine(codec, raw[LineStart(raw, n - 1)..n - 1])
  }

  function ParseLines(codec: Codec, raw: seq<byte>): seq<Entry> {
    ParsedUpTo(codec, raw, |raw|)
  }

  lemma {:induction false} LineStartIs(raw: seq<byte>, m: nat, k: nat)
    requires m <= k <= |raw| && (m == 0 || raw[m - 1] == NEWLINE)
    requires forall j :: m <= j < k ==> raw[j] != NEWLINE
    ensures LineStart(raw, k) == m
    decreases k
  {
    if m < k {
      LineStartIs(raw, m, k - 1);
    }
  }

  // The torn tail is exactly what lies after the last newline.
  lemma CompletePartIs(raw: seq<byte>, torn: seq<byte>)
    requires EndsComplete(raw) && NEWLINE !in torn
    ensures CompleteLen(raw + torn) == |raw|
  {
    var all := raw + torn;
    forall j | |raw| <= j < |all|
      ensures all[j] != NEWLINE
    {
      assert all[j] == torn[j - |raw|];
    }
    LineStartIs(all, |raw|, |all|);
  }

  lemma {:induction false} LineStartOfPrefix(raw: seq<byte>, ext: seq<byte>, k: nat)
    requires k <= |raw|
    ensures LineStart(raw + ext, k) == LineStart(raw, k)
  {
    if k > 0 {
      assert (raw + ext)[k - 1] == raw[k - 1];
      LineStartOfPrefix(raw, ext, k - 1);
    }
  }

  // What is in the file parses the same whatever is appended behind it.
  lemma {:induction false} ParsedPrefix(codec: Codec, raw: seq<byte>, ext: seq<byte>, n: nat)
    requires n <= |raw|
    ensures ParsedUpTo(codec, raw + ext, n) == ParsedUpTo(codec, raw, n)
  {
    if n > 0 {
      var start := LineStart(raw, n - 1);
      assert (raw + ext)[n - 1] == raw[n - 1];
      LineStartOfPrefix(raw, ext, n - 1);
      ParsedPrefix(codec, raw, ext, n - 1);
      assert (raw + ext)[start..n - 1] == raw[start..n - 1];
    }
  }

  // Without a newline no line ends.
  lemma {:induction false} NoLineEnds(codec: Codec, raw: seq<byte>, m: nat, n: nat)
    requires m <= n <= |raw| && forall j :: m <= j < n ==> raw[j] != NEWLINE
    ensures ParsedUpTo(codec, raw, n) == ParsedUpTo(codec, raw, m)
    decreases n
  {
    if m < n {
      NoLineEnds(codec, raw, m, n - 1);
    }
  }

  lemma {:induction false} NoneAfterLineStart(raw: seq<byte>, k: nat)
    requires k <= |raw|
    ensures forall j :: LineStart(raw, k) <= j < k ==> raw[j] != NEWLINE
  {
    if k > 0 && raw[k - 1] != NEWLINE {
      NoneAfterLineStart(raw, k - 1);
    }
  }

  lemma TornTailParsesToNothing(codec: Codec, kept: seq<byte>, torn: seq<byte>)
    requires NEWLINE !in torn
    ensures ParseLines(codec, kept + torn) == ParseLines(codec, kept)
  {
    forall j | |kept| <= j < |kept + torn|
      ensures (kept + torn)[j] != NEWLINE
    {
      assert (kept + torn)[j] == torn[j - |kept|];
    }
    NoLineEnds(codec, kept + torn, |kept|, |kept + torn|);
    ParsedPrefix(codec, kept, torn, |kept|);
  }

  // Cutting the torn tail off changes no entry.
  lemma RepairKeepsEntries(codec: Codec, raw: seq<byte>)
    ensures EndsComplete(raw[..CompleteLen(raw)])
    ensures ParseLines(codec, raw[..CompleteLen(raw)]) == ParseLines(codec, raw)
  {
    var n := CompleteLen(raw);
    var kept, torn := raw[..n], raw[n..];
    NoneAfterLineStart(raw, |raw|);
    TornTailParsesToNothing(codec, kept, torn);
    assert kept + torn == raw;
  }

  // What appending the entries one by one writes.
  function Image(codec: Codec, entries: seq<Entry>): seq<byte> {
    if entries == [] then []
    else Image(codec, entries[..|entries| - 1]) + Line(codec, entries[|entries| - 1])
  }

  function Line(codec: Codec, e: Entry): seq<byte> {
    codec.encode(e) + [NEWLINE]
  }

  lemma NextLineParses(codec: Codec, raw: seq<byte>, start: nat, end: nat)
    requires start <= end < |raw| && raw[end] == NEWLINE && (start == 0 || raw[start - 1] == NEWLINE)
    requires forall j :: start <= j < end ==> raw[j] != NEWLINE
    ensures ParsedUpTo(codec, raw, end + 1) == ParsedUpTo(codec, raw, start) + ParsedLine(codec, raw[start..end])
  {
    LineStartIs(raw, start, end);
    NoLineEnds(codec, raw, start, end);
  }

  // A complete file followed by one more complete line parses to the same entries and
  // that line's.
  lemma ParseAppendedLine(codec: Codec, raw: seq<byte>, line: seq<byte>)
    requires EndsComplete(raw) && NEWLINE !in line
    ensures EndsComplete(raw + (line + [NEWLINE]))
    ensures ParseLines(codec, raw + (line + [NEWLINE])) == ParseLines(codec, raw) + ParsedLine(codec, line)
  {
    LastLineIs(raw, line);
    ParsedPrefix(codec, raw, line + [NEWLINE], |raw|);
    OneLineMore(codec, raw, raw + (line + [NEWLINE]), line);
  }

  lemma {:induction false} OneLineMore(codec: Codec, raw: seq<byte>, all: seq<byte>, line: seq<byte>)
    requires EndsComplete(raw) && |all| == |raw| + |line| + 1 && all[|all| - 1] == NEWLINE
    requires |raw| > 0 ==> all[|raw| - 1] == NEWLINE
    requires all[|raw|..|all| - 1] == line && forall j :: |raw| <= j < |all| - 1 ==> all[j] != NEWLINE
    requires ParsedUpTo(codec, all, |raw|) == ParseLines(codec, raw)
    ensures ParseLines(codec, all) == ParseLines(codec, raw) + ParsedLine(codec, line)
  {
    NextLineParses(codec, all, |raw|, |all| - 1);
  }

  lemma LastLineIs(raw: seq<byte>, line: seq<byte>)
    requires NEWLINE !in line
    ensures var all, end := raw + (line + [NEWLINE]), |raw| + |line|;
      && |all| == end + 1 && all[end] == NEWLINE && all[|raw|..end] == line
      && forall j :: |raw| <= j < end ==> all[j] != NEWLINE
  {
  }

  lemma AppendedEntryParses(codec: Codec, raw: seq<byte>, e: Entry)
    requires Faithful(codec) && EndsComplete(raw)
    ensures EndsComplete(raw + Line(codec, e))
    ensures ParseLines(codec, raw + Line(codec, e)) == ParseLines(codec, raw) + [e]
    ensures raw + codec.encode(e) + [NEWLINE] == raw + Line(codec, e)
  {
    ParseAppendedLine(codec, raw, codec.encode(e));
    assert codec.parseLine(codec.encode(e)) == Some(e);
  }

  lemma {:induction false} ParseOfImage(codec: Codec, entries: seq<Entry>)
    requires Faithful(codec)
    ensures EndsComplete(Image(codec, entries))
    ensures ParseLines(codec, Image(codec, entries)) == entries
  {
    if entries != [] {
      var n := |entries| - 1;
      ParseOfImage(codec, entries[..n]);
      AppendedEntryParses(codec, Image(codec, entries[..n]), entries[n]);
    }
  }

  // ---- The store ---------------------------------------------------------------------------

  // The files of one session directory. `state` is state.json: absent or unreadable, or
  // the leaf it records; it is replaced by a rename, so never torn.
  class Disk {
    var log: seq<byte>
    var state: Option<Option<string>>
  }

  // The last entry wins over state.json whenever there is one.
  function ReconcileLeaf(state: Option<Option<string>>, entries: seq<Entry>): (leaf: Option<string>) {
    var stateLeaf := if state.Some? then state.value else None;
    var derived := if entries == [] then None else Some(entries[|entries| - 1].id);
    match (stateLeaf, derived)
    case (Some(s), Some(d)) => if s == d then Some(s) else Some(d)
    case (Some(s), None) => Some(s)
    case (None, d) => d
  }

  method ReadEntries(codec: Codec, raw: seq<byte>) returns (entries: seq<Entry>)
    requires EndsComplete(raw)
    ensures entries == ParseLines(codec, raw)
  {
    entries := [];
    var start := 0;
    while start < |raw|
      invariant start <= |raw| && (start == 0 || raw[start - 1] == NEWLINE)
      invariant entries == ParsedUpTo(codec, raw, start)
    {
      var end := LineEnd(raw, start);
      entries := ReadOne(codec, raw, start, end, entries);
      start := end + 1;
    }
  }

  method ReadOne(codec: Codec, raw: seq<byte>, start: nat, end: nat, before: seq<Entry>) returns (entries: seq<Entry>)
    requires start <= end < |raw| && raw[end] == NEWLINE && (start == 0 || raw[start - 1] == NEWLINE)
    requires forall j :: start <= j < end ==> raw[j] != NEWLINE
    requires before == ParsedUpTo(codec, raw, start)
    ensures entries == ParsedUpTo(codec, raw, end + 1)
  {
    NextLineParses(codec, raw, start, end);
    var parsed := codec.parseLine(raw[start..end]);
    entries := before + if parsed.Some? then [parsed.value] else [];
  }

  method LineEnd(raw: seq<byte>, start: nat) returns (end: nat)
    requires start < |raw| && EndsComplete(raw)
    ensures start <= end < |raw| && raw[end] == NEWLINE
    ensures forall j :: start <= j < end ==> raw[j] != NEWLINE
  {
    end := start;
    while raw[end] != NEWLINE
      invariant start <= end < |raw|
      invariant forall j :: start <= j < end ==> raw[j] != NEWLINE
      decreases |raw| - end
    {
      end := end + 1;
    }
  }

  method FindCompleteLen(raw: seq<byte>) returns (n: nat)
    ensures n == CompleteLen(raw) && EndsComplete(raw[..n])
  {
    n := |raw|;
    while n > 0 && raw[n - 1] != NEWLINE
      invariant n <= |raw|
      invariant forall j :: n <= j < |raw| ==> raw[j] != NEWLINE
    {
      n := n - 1;
    }
    LineStartIs(raw, n, |raw|);
  }

  class JsonlSessionStorage {
    const codec: Codec
    const disk: Disk
    var entries: seq<Entry>
    var index: map<string, nat>
    var leafId: Option<string>
    var labels: map<string, string>

    // Memory is what reopening the directory would read.
    ghost predicate Valid()
      reads this, disk
    {
      && EndsComplete(disk.log)
      && entries == ParseLines(codec, disk.log)
      && index == IndexOf(entries)
      && labels == LabelsOf(entries)
    }

    constructor OpenOrInit(codec: Codec, disk: Disk)
      modifies disk`log
      ensures Valid() && this.codec == codec && this.disk == disk
      ensures disk.log == old(disk.log[..CompleteLen(disk.log)])
      ensures leafId == ReconcileLeaf(disk.state, entries)
    {
      this.codec := codec;
      this.disk := disk;
      this.entries, this.index, this.leafId, this.labels := [], map[], None, map[];
      new;
      var completeLen := FindCompleteLen(disk.log);
      disk.log := disk.log[..completeLen];
      var es := ReadEntries(codec, disk.log);
      var idx, ls := IndexAndLabels(es);
      entries, index, labels := es, idx, ls;
      leafId := ReconcileLeaf(disk.state, entries);
    }

    // A known id is refused and nothing changes. Otherwise the entry is in file and memory by
    // the time state.json is replaced; when that fails an error is returned all the same.
    method AppendEntry(e: Entry, stateSaved: bool) returns (r: Result<()>)
      requires Valid() && Faithful(codec)
      modifies this, disk
      ensures Valid()
      ensures r.Ok? <==> !HasId(old(entries), e.id) && stateSaved
      ensures !HasId(old(entries), e.id) ==>
                && entries == old(entries) + [e] && leafId == Some(e.id)
                && disk.log == old(disk.log) + Line(codec, e)
                && disk.state == (if stateSaved then Some(Some(e.id)) else old(disk.state))
                && (r.Err? ==> r.error == StateNotSaved)
      ensures HasId(old(entries), e.id) ==>
                && r == Err(DuplicateEntryId(e.id))
                && entries == old(entries) && leafId == old(leafId)
                && disk.log == old(disk.log) && disk.state == old(disk.state)
    {
      IndexedIff(entries, e.id);
      if e.id in index {
        return Err(DuplicateEntryId(e.id));
      }
      AppendedEntryParses(codec, disk.log, e);
      ReplayStep(entries, e);
      disk.log := disk.log + codec.encode(e);
      disk.log := disk.log + [NEWLINE];
      labels := ApplyLabel(labels, e.kind);
      leafId := Some(e.id);
      index := index[e.id := |entries|];
      entries := entries + [e];
      r := PersistState(stateSaved);
    }

    method PersistState(saved: bool) returns (r: Result<()>)
      modifies disk`state
      ensures disk.state == if saved then Some(leafId) else old(disk.state)
      ensures r == if saved then Ok(()) else Err(StateNotSaved)
    {
      if !saved {
        return Err(StateNotSaved);
      }
      disk.state := Some(leafId);
      return Ok(());
    }

    method SetLeafId(leaf: Option<string>, stateSaved: bool) returns (r: Result<()>)
      requires Valid()
      modifies `leafId, disk`state
      ensures Valid() && leafId == leaf && r.Ok? == stateSaved
      ensures disk.state == if stateSaved then Some(leaf) else old(disk.state)
    {
      leafId := leaf;
      r := PersistState(stateSaved);
    }

    method PathToRoot(leaf: Option<string>) returns (path: seq<Entry>)
      requires Valid() && WellFormed(entries)
      ensures path == Branch(entries, leaf)
    {
      path := GetPathToRoot(entries, index, leaf);
    }
  }

  // The base or an earlier entry has the id of the ith already.
  ghost predicate ClashesAt(base: seq<Entry>, entries: seq<Entry>, i: nat)
    requires i < |entries|
  {
    HasId(base + entries[..i], entries[i].id)
  }

  ghost predicate NoClash(base: seq<Entry>, entries: seq<Entry>, k: nat)
    requires k <= |entries|
  {
    forall i :: 0 <= i < k ==> !ClashesAt(base, entries, i)
  }

  // A fork on disk: the entries are appended one by one to the session opened under the given
  // id, behind whatever that session already holds. The first id it knows stops the fork,
  // with the entries before it left in the target.
  method ForkInto(entries: seq<Entry>, target: JsonlSessionStorage) returns (r: Result<()>, k: nat)
    requires target.Valid() && Faithful(target.codec)
    modifies target, target.disk
    ensures target.Valid()
    ensures k <= |entries| && target.entries == old(target.entries) + entries[..k]
    ensures target.leafId == if k == 0 then old(target.leafId) else Some(entries[k - 1].id)
    ensures NoClash(old(target.entries), entries, k)
    ensures if r.Ok? then k == |entries| else
      k < |entries| && r.error == DuplicateEntryId(entries[k].id) && ClashesAt(old(target.entries), entries, k)
  {
    k, r := 0, Ok(());
    ghost var base, leaf := target.entries, target.leafId;
    while k < |entries| && r.Ok?
      invariant target.Valid() && Forked(base, leaf, entries, k, target.entries, target.leafId)
      invariant r.Err? ==> k < |entries| && StoppedBy(base, entries, k, r)
      decreases |entries| - k, r.Ok?
    {
      r := ForkOne(entries, target, base, leaf, k);
      k := if r.Ok? then k + 1 else k;
    }
  }

  // The first k entries have been appended to a log that held the base.
  ghost predicate Forked(base: seq<Entry>, leaf: Option<string>, entries: seq<Entry>, k: nat, now: seq<Entry>, nowLeaf: Option<string>) {
    && k <= |entries| && now == base + entries[..k] && NoClash(base, entries, k)
    && nowLeaf == if k == 0 then leaf else Some(entries[k - 1].id)
  }

  ghost predicate StoppedBy(base: seq<Entry>, entries: seq<Entry>, k: nat, r: Result<()>)
    requires k < |entries|
  {
    r == Err(DuplicateEntryId(entries[k].id)) && ClashesAt(base, entries, k)
  }

  lemma ForkedNext(base: seq<Entry>, leaf: Option<string>, entries: seq<Entry>, k: nat, now: seq<Entry>, nowLeaf: Option<string>)
    requires k < |entries| && Forked(base, leaf, entries, k, now, nowLeaf)
    ensures HasId(now, entries[k].id) <==> ClashesAt(base, entries, k)
    ensures !HasId(now, entries[k].id) ==> Forked(base, leaf, entries, k + 1, now + [entries[k]], Some(entries[k].id))
  {
    assert base + entries[..k + 1] == base + entries[..k] + [entries[k]];
  }

  method ForkOne(entries: seq<Entry>, target: JsonlSessionStorage, ghost base: seq<Entry>, ghost leaf: Option<string>, k: nat)
    returns (r: Result<()>)
    requires target.Valid() && Faithful(target.codec)
    requires k < |entries| && Forked(base, leaf, entries, k, target.entries, target.leafId)
    modifies target, target.disk
    ensures target.Valid()
    ensures Forked(base, leaf, entries, if r.Ok? then k + 1 else k, target.entries, target.leafId)
    ensures r.Err? ==> StoppedBy(base, entries, k, r)
  {
    ForkedNext(base, leaf, entries, k, target.entries, target.leafId);
    r := target.AppendEntry(entries[k], true);
  }

  // Into a fresh session a fork of distinct entries copies them all.
  lemma FreshForkHasNoClash(entries: seq<Entry>, k: nat)
    requires UniqueIds(entries) && k <= |entries|
    ensures NoClash([], entries, k)
  {
  }

  // ---- Runs with crashes ---------------------------------------------------------------------

  datatype Files = Files(log: seq<byte>, state: Option<Option<string>>)
  datatype Memory = Memory(entries: seq<Entry>, leaf: Option<string>)

  // `durable` collects the entries whose whole line reached the file, `acked` those whose
  // append returned without an error; `issued` holds every id ever handed out or named.
  // `unacked` counts the entries whole in the file that no append acknowledged, because it
  // crashed or returned an error after that.
  datatype World = World(
    files: Files,
    memory: Option<Memory>,
    issued: set<string>,
    durable: seq<Entry>,
    acked: seq<Entry>,
    unacked: nat)

  datatype Op =
    | Open
    | CrashInOpen(repaired: bool)
    | Append(id: string, kind: EntryKind, stateSaved: bool)
    | CrashInAppend(id: string, kind: EntryKind, written: nat, stateSaved: bool)
    | SetLeaf(leaf: Option<string>, stateSaved: bool)
    | Crash

  function Repaired(files: Files): Files {
    files.(log := files.log[..CompleteLen(files.log)])
  }

  ghost predicate Enabled(codec: Codec, w: World, op: Op) {
    match op
    case Open => w.memory.None?
    case CrashInOpen(_) => w.memory.None?
    case Append(id, kind, saved) => w.memory.Some? && id !in w.issued
    case CrashInAppend(id, kind, written, saved) =>
      && w.memory.Some? && id !in w.issued
      && written <= |Line(codec, Entry(id, w.memory.value.leaf, kind))|
      && (saved ==> written == |Line(codec, Entry(id, w.memory.value.leaf, kind))|)
    case SetLeaf(_, _) => w.memory.Some?
    case Crash => w.memory.Some?
  }

  // The steps are the methods above, cut short where a crash is named: a crash inside an
  // append leaves any byte prefix of the line, and state.json saved only after all of it.
  function Step(codec: Codec, w: World, op: Op): World
    requires op.Append? || op.CrashInAppend? ==> w.memory.Some?
    requires op.SetLeaf? ==> w.memory.Some?
    requires op.CrashInAppend? ==> op.written <= |Line(codec, Entry(op.id, w.memory.value.leaf, op.kind))|
  {
    match op
    case Open =>
      var files := Repaired(w.files);
      var entries := ParseLines(codec, files.log);
      w.(files := files, memory := Some(Memory(entries, ReconcileLeaf(files.state, entries))))
    case CrashInOpen(repaired) =>
      w.(files := if repaired then Repaired(w.files) else w.files)
    case Append(id, kind, saved) =>
      var e := Entry(id, w.memory.value.leaf, kind);
      w.(files := Files(w.files.log + Line(codec, e), if saved then Some(Some(id)) else w.files.state),
         memory := Some(Memory(w.memory.value.entries + [e], Some(id))),
         issued := w.issued + {id}, durable := w.durable + [e],
         acked := if saved then w.acked + [e] else w.acked,
         unacked := if saved then w.unacked else w.unacked + 1)
    case CrashInAppend(id, kind, written, saved) =>
      var e := Entry(id, w.memory.value.leaf, kind);
      var line := Line(codec, e);
      w.(files := Files(w.files.log + line[..written], if saved then Some(Some(id)) else w.files.state),
         memory := None, issued := w.issued + {id},
         unacked := if written == |line| then w.unacked + 1 else w.unacked,
         durable := if written == |line| then w.durable + [e] else w.durable)
    case SetLeaf(leaf, saved) =>
      w.(files := if saved then w.files.(state := Some(leaf)) else w.files,
         memory := Some(w.memory.value.(leaf := leaf)),
         issued := if leaf.Some? then w.issued + {leaf.value} else w.issued)
    case Crash =>
      w.(memory := None)
  }

  // The steps that end well are the methods'.
  ghost predicate Holds(store: JsonlSessionStorage, w: World)
    reads store, store.disk
  {
    w.files == Files(store.disk.log, store.disk.state) && w.memory == Some(Memory(store.entries, store.leafId))
  }

  method PerformOpen(codec: Codec, disk: Disk, ghost w: World) returns (store: JsonlSessionStorage)
    requires w.memory.None? && w.files == Files(disk.log, disk.state)
    modifies disk
    ensures store.Valid() && store.codec == codec && store.disk == disk && Holds(store, Step(codec, w, Open))
  {
    store := new JsonlSessionStorage.OpenOrInit(codec, disk);
  }

  method Perform(store: JsonlSessionStorage, op: Op, ghost w: World) returns (r: Result<()>)
    requires store.Valid() && Faithful(store.codec) && Holds(store, w)
    requires Recoverable(store.codec, w) && Enabled(store.codec, w, op) && (op.Append? || op.SetLeaf?)
    modifies store, store.disk
    ensures store.Valid() && Holds(store, Step(store.codec, w, op))
    ensures op.Append? ==> Step(store.codec, w, op).acked == w.acked + if r.Ok? then [Entry(op.id, w.memory.value.leaf, op.kind)] else []
  {
    match op {
      case Append(id, kind, saved) =>
        assert !HasId(store.entries, id);
        r := store.AppendEntry(Entry(id, store.leafId, kind), saved);
      case SetLeaf(leaf, saved) =>
        r := store.SetLeafId(leaf, saved);
    }
  }

  // a is d with some entries left out, in order.
  ghost predicate KeptInOrder(a: seq<Entry>, d: seq<Entry>) {
    exists at: seq<nat> :: IsSublog(a, d, at)
  }

  ghost predicate Recoverable(codec: Codec, w: World) {
    && FilesHold(codec, w.files, w.durable)
    && WellFormed(w.durable)
    && Mentions(w.issued, w.durable, if w.files.state.Some? then w.files.state.value else None)
    && KeptInOrder(w.acked, w.durable)
    && |w.durable| == |w.acked| + w.unacked
    && (w.memory.Some? ==>
          && w.files.log == Image(codec, w.durable)
          && w.memory.value.entries == w.durable
          && (w.memory.value.leaf.Some? ==> w.memory.value.leaf.value in w.issued))
  }

  // The file is the image of the durable entries, perhaps with a torn line behind it.
  ghost predicate FilesHold(codec: Codec, files: Files, durable: seq<Entry>) {
    Repaired(files).log == Image(codec, durable)
  }

  lemma ImageHolds(codec: Codec, files: Files, durable: seq<Entry>)
    requires Faithful(codec) && files.log == Image(codec, durable)
    ensures FilesHold(codec, files, durable)
    ensures Repaired(files) == files
  {
    ParseOfImage(codec, durable);
    assert files.log[..|files.log|] == files.log;
  }

  lemma TornImageHolds(codec: Codec, files: Files, durable: seq<Entry>, torn: seq<byte>)
    requires Faithful(codec) && files.log == Image(codec, durable) + torn && NEWLINE !in torn
    ensures FilesHold(codec, files, durable)
  {
    ParseOfImage(codec, durable);
    CompletePartIs(Image(codec, durable), torn);
  }

  lemma StepKeepsRecoverable(codec: Codec, w: World, op: Op)
    requires Faithful(codec) && Recoverable(codec, w) && Enabled(codec, w, op)
    ensures Recoverable(codec, Step(codec, w, op))
  {
    match op {
      case Open =>
        OpenKeepsRecoverable(codec, w);
      case CrashInOpen(repaired) =>
        ImageHolds(codec, Repaired(w.files), w.durable);
      case Append(id, kind, saved) =>
        AppendKeepsRecoverable(codec, w, Entry(id, w.memory.value.leaf, kind), saved);
      case CrashInAppend(id, kind, written, saved) =>
        CrashInAppendKeepsRecoverable(codec, w, Entry(id, w.memory.value.leaf, kind), written, saved);
      case SetLeaf(leaf, saved) =>
      case Crash =>
    }
  }

  lemma OpenKeepsRecoverable(codec: Codec, w: World)
    requires Faithful(codec) && Recoverable(codec, w)
    ensures Recoverable(codec, Step(codec, w, Open))
  {
    var files := Repaired(w.files);
    ImageHolds(codec, files, w.durable);
    ParseOfImage(codec, w.durable);
    var leaf := ReconcileLeaf(files.state, w.durable);
    assert leaf.Some? ==> leaf.value in w.issued;
  }

  lemma {:induction false} AppendKeepsRecoverable(codec: Codec, w: World, e: Entry, saved: bool)
    requires Faithful(codec) && Recoverable(codec, w) && w.memory.Some?
    requires e.id !in w.issued && e.parentId == w.memory.value.leaf
    ensures Recoverable(codec, Step(codec, w, Append(e.id, e.kind, saved)))
  {
    var w' := Step(codec, w, Append(e.id, e.kind, saved));
    assert e == Entry(e.id, w.memory.value.leaf, e.kind);
    DurableGrows(codec, w, e);
    ImageHolds(codec, w'.files, w'.durable);
    MentionsState(w.issued, w.durable, w.memory.value.leaf, if w.files.state.Some? then w.files.state.value else None, e);
  }

  // What an entry that reaches the file keeps of the tree and of the acknowledged appends.
  lemma {:induction false} DurableGrows(codec: Codec, w: World, e: Entry)
    requires Faithful(codec) && Recoverable(codec, w) && w.memory.Some?
    requires e.id !in w.issued && e.parentId == w.memory.value.leaf
    ensures Image(codec, w.durable + [e]) == w.files.log + Line(codec, e) && EndsComplete(Image(codec, w.durable + [e]))
    ensures WellFormed(w.durable + [e])
    ensures KeptInOrder(w.acked + [e], w.durable + [e]) && KeptInOrder(w.acked, w.durable + [e])
  {
    AppendKeepsWellFormed(w.durable, w.issued, w.memory.value.leaf, e);
    AppendIsDurable(codec, w.durable, e);
    AckedAppends(w.acked, w.durable, e);
  }

  lemma MentionsState(ids: set<string>, entries: seq<Entry>, leaf: Option<string>, state: Option<string>, e: Entry)
    requires Mentions(ids, entries, state) && (leaf.Some? ==> leaf.value in ids) && e.parentId == leaf
    ensures Mentions(ids + {e.id}, entries + [e], Some(e.id))
    ensures Mentions(ids + {e.id}, entries + [e], state)
  {
  }

  lemma AppendIsDurable(codec: Codec, durable: seq<Entry>, e: Entry)
    requires Faithful(codec)
    ensures Image(codec, durable + [e]) == Image(codec, durable) + Line(codec, e)
    ensures EndsComplete(Image(codec, durable + [e]))
  {
    assert (durable + [e])[..|durable|] == durable;
    ParseOfImage(codec, durable + [e]);
  }

  lemma AckedAppends(a: seq<Entry>, d: seq<Entry>, e: Entry)
    requires KeptInOrder(a, d)
    ensures KeptInOrder(a + [e], d + [e]) && KeptInOrder(a, d + [e])
  {
    var at: seq<nat> :| IsSublog(a, d, at);
    assert IsSublog(a, d + [e], at);
    assert IsSublog(a + [e], d + [e], at + [|d|]);
  }

  lemma {:induction false} CrashInAppendKeepsRecoverable(codec: Codec, w: World, e: Entry, written: nat, saved: bool)
    requires Faithful(codec) && Recoverable(codec, w) && w.memory.Some?
    requires e.id !in w.issued && e.parentId == w.memory.value.leaf && written <= |Line(codec, e)|
    requires saved ==> written == |Line(codec, e)|
    ensures Recoverable(codec, Step(codec, w, CrashInAppend(e.id, e.kind, written, saved)))
  {
    var line := Line(codec, e);
    var w' := Step(codec, w, CrashInAppend(e.id, e.kind, written, saved));
    assert w.files.state == w'.files.state || saved;
    if written == |line| {
      assert line[..written] == line;
      DurableGrows(codec, w, e);
      ImageHolds(codec, w'.files, w'.durable);
      MentionsState(w.issued, w.durable, w.memory.value.leaf, if w.files.state.Some? then w.files.state.value else None, e);
    } else {
      NewlineIsLast(codec, e, written);
      TornImageHolds(codec, w'.files, w.durable, line[..written]);
    }
  }

  lemma NewlineIsLast(codec: Codec, e: Entry, written: nat)
    requires Faithful(codec) && written < |Line(codec, e)|
    ensures NEWLINE !in Line(codec, e)[..written]
  {
    assert Line(codec, e)[..written] == codec.encode(e)[..written];
  }

  const Fresh := World(Files([], None), None, {}, [], [], 0)

  ghost predicate IsRun(codec: Codec, ws: seq<World>, ops: seq<Op>) {
    && |ws| == |ops| + 1 && ws[0] == Fresh
    && forall k: nat :: k < |ops| ==> IsStep(codec, ws[k], ops[k], ws[k + 1])
  }

  ghost predicate IsStep(codec: Codec, w: World, op: Op, w': World) {
    Enabled(codec, w, op) && w' == Step(codec, w, op)
  }

  lemma {:induction false} RunsAreRecoverable(codec: Codec, ws: seq<World>, ops: seq<Op>, k: nat)
    requires Faithful(codec) && IsRun(codec, ws, ops) && k < |ws|
    ensures forall j :: 0 <= j <= k ==> Recoverable(codec, ws[j])
    decreases k
  {
    if k > 0 {
      RunsAreRecoverable(codec, ws, ops, k - 1);
      assert IsStep(codec, ws[k - 1], ops[k - 1], ws[(k - 1) + 1]);
      StepKeepsRecoverable(codec, ws[k - 1], ops[k - 1]);
    } else {
      assert IsSublog([], [], []);
    }
  }

  // An opened session holds exactly the entries whose whole line reached the file. That is
  // every acknowledged append, in order, and beside them exactly the entries that reached the
  // file whole although a crash or an error kept their append from being acknowledged; the
  // last one is the leaf.
  ghost predicate Recovered(w: World) {
    && w.memory.Some?
    && var entries := w.memory.value.entries;
    && entries == w.durable
    && KeptInOrder(w.acked, entries)
    && |entries| == |w.acked| + w.unacked
    && (entries != [] ==> w.memory.value.leaf == Some(entries[|entries| - 1].id))
    && WellFormed(entries)
  }

  // Crash recovery: so it is whenever a session is opened in a run.
  lemma OpenRecoversDurable(codec: Codec, ws: seq<World>, ops: seq<Op>)
    requires Faithful(codec) && IsRun(codec, ws, ops)
    ensures forall k :: 0 <= k < |ops| && ops[k].Open? ==> Recovered(ws[k + 1])
  {
    RunsAreRecoverable(codec, ws, ops, |ops|);
    forall k | 0 <= k < |ops| && ops[k].Open?
      ensures Recovered(ws[k + 1])
    {
      assert IsStep(codec, ws[k], ops[k], ws[k + 1]);
      assert Recoverable(codec, ws[k + 1]);
    }
  }

  // An entry caught by a crash is recovered exactly when its newline was written.
  lemma InFlightSurvivesIff(codec: Codec, w: World, id: string, kind: EntryKind, written: nat, saved: bool)
    requires Faithful(codec) && Recoverable(codec, w) && Enabled(codec, w, CrashInAppend(id, kind, written, saved))
    ensures var e := Entry(id, w.memory.value.leaf, kind);
            var after := Step(codec, Step(codec, w, CrashInAppend(id, kind, written, saved)), Open);
            e in after.memory.value.entries <==> written == |Line(codec, e)|
  {
    var e := Entry(id, w.memory.value.leaf, kind);
    var crashed := Step(codec, w, CrashInAppend(id, kind, written, saved));
    StepKeepsRecoverable(codec, w, CrashInAppend(id, kind, written, saved));
    StepKeepsRecoverable(codec, crashed, Open);
    if written == |Line(codec, e)| {
      assert crashed.durable[|w.durable|] == e;
    } else {
      assert forall i :: 0 <= i < |w.durable| ==> w.durable[i].id in w.issued;
    }
  }

  // Moving the leaf without appending does not survive a reopen, unless it moved to the
  // last entry or there is no entry at all.
  lemma LeafSurvivesReopenIff(codec: Codec, w: World, leaf: Option<string>)
    requires Faithful(codec) && Recoverable(codec, w) && w.memory.Some?
    ensures Step(codec, Step(codec, Step(codec, w, SetLeaf(leaf, true)), Crash), Open).memory.value.leaf == leaf
       <==> w.durable == [] || leaf == Some(w.durable[|w.durable| - 1].id)
  {
    var closed := Step(codec, Step(codec, w, SetLeaf(leaf, true)), Crash);
    ParseOfImage(codec, w.durable);
    ImageHolds(codec, closed.files, w.durable);
    assert Step(codec, closed, Open).memory.value.leaf == ReconcileLeaf(Some(leaf), w.durable);
  }

  // Why a failed write has to end the process: if the session went on appending behind a
  // torn line, the fragment and the next entry would be one line, and that acknowledged
  // entry would be recovered only if the fused line happened to parse as it.
  lemma SurvivedFailureFusesLines(codec: Codec, durable: seq<Entry>, torn: seq<byte>, e: Entry)
    requires Faithful(codec) && NEWLINE !in torn
    ensures ParseLines(codec, Image(codec, durable) + torn + Line(codec, e))
         == durable + ParsedLine(codec, torn + codec.encode(e))
  {
    ParseOfImage(codec, durable);
    ParseAppendedLine(codec, Image(codec, durable), torn + codec.encode(e));
    assert Image(codec, durable) + ((torn + codec.encode(e)) + [NEWLINE])
        == Image(codec, durable) + torn + Line(codec, e);
  }
}
