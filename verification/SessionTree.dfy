// The session: a log of entries linked to their parents, with an index, a label map and
// a leaf cursor (grain-agent-harness/src/session.rs).
module SessionTree {
  import opened Messages

  datatype EntryKind =
    | MessageEntry(message: AgentMessage)
    | ThinkingLevelChange(level: string)
    | ModelChange(provider: string, modelId: string)
    | ActiveToolsChange(activeToolNames: seq<string>)
    | Compaction(summary: string, firstKeptEntryId: string, tokensBefore: nat)
    | CustomEntry(entryType: string, data: string)
    | CustomMessage(customType: string, content: string)
    | Label(targetId: string, text: Option<string>)
    | SessionInfo(name: string)
    | BranchSummaryEntry(fromId: string, branchSummary: string)

  datatype Entry = Entry(id: string, parentId: Option<string>, kind: EntryKind)

  datatype SessionError = DuplicateEntryId(dup: string) | NotFound(missing: string) | InvalidForkTarget(target: string) | StateNotSaved
  datatype Result<+T> = Ok(value: T) | Err(error: SessionError)

  // ---- What replaying the log rebuilds -------------------------------------------------

  // Position of the last entry with each id among the first n.
  function IndexUpTo(entries: seq<Entry>, n: nat): (index: map<string, nat>)
    requires n <= |entries|
    ensures forall id :: id in index ==> index[id] < n && entries[index[id]].id == id
  {
    if n == 0 then map[] else IndexUpTo(entries, n - 1)[entries[n - 1].id := n - 1]
  }

  function IndexOf(entries: seq<Entry>): map<string, nat> {
    IndexUpTo(entries, |entries|)
  }

  lemma {:induction false} IndexedUpTo(entries: seq<Entry>, n: nat, k: nat)
    requires k < n <= |entries|
    ensures entries[k].id in IndexUpTo(entries, n) && k <= IndexUpTo(entries, n)[entries[k].id]
  {
    if k < n - 1 {
      IndexedUpTo(entries, n - 1, k);
    }
  }

  lemma IdsAreIndexed(entries: seq<Entry>, k: nat)
    requires k < |entries|
    ensures entries[k].id in IndexOf(entries) && k <= IndexOf(entries)[entries[k].id]
  {
    IndexedUpTo(entries, |entries|, k);
  }

  ghost predicate HasId(entries: seq<Entry>, id: string) {
    exists e :: e in entries && e.id == id
  }

  lemma IndexedIff(entries: seq<Entry>, id: string)
    ensures id in IndexOf(entries) <==> HasId(entries, id)
  {
    if id in IndexOf(entries) {
      assert entries[IndexOf(entries)[id]] in entries;
    }
    if HasId(entries, id) {
      var k :| 0 <= k < |entries| && entries[k].id == id;
      IdsAreIndexed(entries, k);
    }
  }

  function ApplyLabel(labels: map<string, string>, kind: EntryKind): map<string, string> {
    if !kind.Label? then labels
    else match kind.text
      case Some(text) => labels[kind.targetId := text]
      case None => labels - {kind.targetId}
  }

  function LabelsUpTo(entries: seq<Entry>, n: nat): map<string, string>
    requires n <= |entries|
  {
    if n == 0 then map[] else ApplyLabel(LabelsUpTo(entries, n - 1), entries[n - 1].kind)
  }

  function LabelsOf(entries: seq<Entry>): map<string, string> {
    LabelsUpTo(entries, |entries|)
  }

  lemma {:induction false} ReplaySame(entries: seq<Entry>, e: Entry, n: nat)
    requires n <= |entries|
    ensures IndexUpTo(entries + [e], n) == IndexUpTo(entries, n)
    ensures LabelsUpTo(entries + [e], n) == LabelsUpTo(entries, n)
  {
    if n > 0 {
      ReplaySame(entries, e, n - 1);
    }
  }

  // What a store keeps up to date one entry at a time is what replaying the log rebuilds.
  lemma ReplayStep(entries: seq<Entry>, e: Entry)
    ensures IndexOf(entries + [e]) == IndexOf(entries)[e.id := |entries|]
    ensures LabelsOf(entries + [e]) == ApplyLabel(LabelsOf(entries), e.kind)
  {
    ReplaySame(entries, e, |entries|);
  }

  // The label of an entry is the one its last Label entry gave it.
  lemma {:induction false} LabelIsLastGiven(entries: seq<Entry>, target: string, i: nat, n: nat)
    requires i < n <= |entries| && entries[i].kind.Label? && entries[i].kind.targetId == target
    requires forall k :: i < k < n ==> !(entries[k].kind.Label? && entries[k].kind.targetId == target)
    ensures target in LabelsUpTo(entries, n) <==> entries[i].kind.text.Some?
    ensures entries[i].kind.text.Some? ==> LabelsUpTo(entries, n)[target] == entries[i].kind.text.value
  {
    if i < n - 1 {
      LabelIsLastGiven(entries, target, i, n - 1);
    }
  }

  // The replay loop both stores run when they are handed a log.
  method IndexAndLabels(entries: seq<Entry>) returns (index: map<string, nat>, labels: map<string, string>)
    ensures index == IndexOf(entries) && labels == LabelsOf(entries)
  {
    index, labels := map[], map[];
    for i := 0 to |entries|
      invariant index == IndexUpTo(entries, i) && labels == LabelsUpTo(entries, i)
    {
      index := index[entries[i].id := i];
      labels := ApplyLabel(labels, entries[i].kind);
    }
  }

  // ---- Shape of the tree -----------------------------------------------------------------

  ghost predicate UniqueIds(entries: seq<Entry>) {
    forall i, j :: 0 <= i < j < |entries| ==> entries[i].id != entries[j].id
  }

  // No entry names itself or a later entry as its parent. A parent may be missing.
  ghost predicate ParentsPrecede(entries: seq<Entry>) {
    forall i, j :: 0 <= i <= j < |entries| ==> entries[i].parentId != Some(entries[j].id)
  }

  ghost predicate WellFormed(entries: seq<Entry>) {
    UniqueIds(entries) && ParentsPrecede(entries)
  }

  // Every id the session has ever handed out or been told of; a new id is outside it.
  ghost predicate Mentions(ids: set<string>, entries: seq<Entry>, leaf: Option<string>) {
    && (forall i :: 0 <= i < |entries| ==> entries[i].id in ids)
    && (forall i :: 0 <= i < |entries| && entries[i].parentId.Some? ==> entries[i].parentId.value in ids)
    && (leaf.Some? ==> leaf.value in ids)
  }

  lemma AppendKeepsWellFormed(entries: seq<Entry>, ids: set<string>, leaf: Option<string>, e: Entry)
    requires WellFormed(entries) && Mentions(ids, entries, leaf)
    requires e.id !in ids && (e.parentId.Some? ==> e.parentId.value in ids)
    ensures WellFormed(entries + [e])
    ensures Mentions(ids + {e.id}, entries + [e], Some(e.id))
  {
  }

  // An order-preserving choice of entries: what is left when lines of the log are skipped.
  ghost predicate IsSublog(sub: seq<Entry>, all: seq<Entry>, at: seq<nat>) {
    && |at| == |sub|
    && (forall k :: 0 <= k < |at| ==> at[k] < |all| && sub[k] == all[at[k]])
    && (forall k, l :: 0 <= k < l < |at| ==> at[k] < at[l])
  }

  // Skipping lines may orphan an entry but never makes a cycle.
  lemma SublogKeepsWellFormed(sub: seq<Entry>, all: seq<Entry>, at: seq<nat>)
    requires WellFormed(all) && IsSublog(sub, all, at)
    ensures WellFormed(sub)
  {
    forall i, j | 0 <= i < j < |sub|
      ensures sub[i].id != sub[j].id && sub[i].parentId != Some(sub[j].id)
    {
      assert at[i] < at[j];
    }
  }

  // ---- The branch from an entry to its root ----------------------------------------------

  // Position of an entry's parent, if the log holds it.
  function ParentAt(entries: seq<Entry>, i: nat): (p: Option<nat>)
    requires i < |entries|
    ensures p.Some? ==> p.value < |entries| && entries[i].parentId == Some(entries[p.value].id)
  {
    var index := IndexOf(entries);
    if entries[i].parentId.Some? && entries[i].parentId.value in index
    then Some(index[entries[i].parentId.value]) else None
  }

  function PathAt(entries: seq<Entry>, i: nat): (path: seq<Entry>)
    requires WellFormed(entries) && i < |entries|
    ensures path != [] && path[|path| - 1] == entries[i]
    ensures |path| <= i + 1
    decreases i
  {
    match ParentAt(entries, i)
    case None => [entries[i]]
    case Some(p) => PathAt(entries, p) + [entries[i]]
  }

  function Branch(entries: seq<Entry>, leaf: Option<string>): (path: seq<Entry>)
    requires WellFormed(entries)
  {
    if leaf.Some? && leaf.value in IndexOf(entries) then PathAt(entries, IndexOf(entries)[leaf.value]) else []
  }

  // Each entry's parent is the one before it, and the walk stopped because the first
  // entry's parent is not in the log.
  ghost predicate IsChain(path: seq<Entry>) {
    forall k :: 0 < k < |path| ==> path[k].parentId == Some(path[k - 1].id)
  }

  // A chain of logged entries, no later than the ith, that ends where no parent is logged.
  ghost predicate IsRootedChain(entries: seq<Entry>, path: seq<Entry>, i: nat)
    requires i < |entries|
  {
    && path != [] && IsChain(path) && WellFormed(path)
    && (path[0].parentId.Some? ==> path[0].parentId.value !in IndexOf(entries))
    && (forall e :: e in path ==> exists k :: 0 <= k <= i && entries[k] == e)
  }

  lemma {:induction false} PathIsChain(entries: seq<Entry>, n: nat)
    requires WellFormed(entries) && n <= |entries|
    ensures forall i :: 0 <= i < n ==> IsRootedChain(entries, PathAt(entries, i), i)
  {
    if n > 0 {
      PathIsChain(entries, n - 1);
      var i := n - 1;
      match ParentAt(entries, i)
      case None =>
      case Some(p) =>
        var before := PathAt(entries, p);
        assert IsRootedChain(entries, before, p);
        NotYetInChain(entries, before, p, i);
    }
  }

  // An entry is neither in a chain that ends before it nor the parent of one of its entries.
  lemma NotYetInChain(entries: seq<Entry>, before: seq<Entry>, p: nat, i: nat)
    requires WellFormed(entries) && p < i < |entries| && IsRootedChain(entries, before, p)
    ensures forall k :: 0 <= k < |before| ==> before[k].id != entries[i].id && before[k].parentId != Some(entries[i].id)
  {
    forall k | 0 <= k < |before|
      ensures before[k].id != entries[i].id && before[k].parentId != Some(entries[i].id)
    {
      assert before[k] in before;
      var at :| 0 <= at <= p && entries[at] == before[k];
    }
  }

  lemma BranchStep(entries: seq<Entry>, i: nat)
    requires WellFormed(entries) && i < |entries|
    ensures Branch(entries, Some(entries[i].id)) == Branch(entries, entries[i].parentId) + [entries[i]]
    ensures entries[i].parentId.Some? && entries[i].parentId.value in IndexOf(entries) ==>
              IndexOf(entries)[entries[i].parentId.value] < i
  {
    IdsAreIndexed(entries, i);
    assert IndexOf(entries)[entries[i].id] == i;
    assert PathAt(entries, i) == Branch(entries, entries[i].parentId) + [entries[i]];
  }

  function Reversed(s: seq<Entry>): seq<Entry> {
    if s == [] then [] else [s[|s| - 1]] + Reversed(s[..|s| - 1])
  }

  lemma MoveToReversed(front: seq<Entry>, e: Entry, reversed: seq<Entry>)
    ensures front + [e] + Reversed(reversed) == front + Reversed(reversed + [e])
  {
    assert (reversed + [e])[..|reversed|] == reversed;
  }

  // What is still ahead of a walk and what it has passed make up the whole branch.
  ghost predicate Ahead(entries: seq<Entry>, leaf: Option<string>, current: Option<string>, reversed: seq<Entry>)
    requires WellFormed(entries)
  {
    Branch(entries, leaf) == Branch(entries, current) + Reversed(reversed)
  }

  lemma WalkStarts(entries: seq<Entry>, leaf: Option<string>)
    requires WellFormed(entries)
    ensures Ahead(entries, leaf, leaf, [])
    ensures leaf.Some? && leaf.value in IndexOf(entries) ==> IndexOf(entries)[leaf.value] < |entries|
  {
    assert Branch(entries, leaf) + [] == Branch(entries, leaf);
  }

  lemma WalkStep(entries: seq<Entry>, leaf: Option<string>, id: string, reversed: seq<Entry>)
    requires WellFormed(entries) && id in IndexOf(entries) && Ahead(entries, leaf, Some(id), reversed)
    ensures
      var i := IndexOf(entries)[id];
      var parent := entries[i].parentId;
      && Ahead(entries, leaf, parent, reversed + [entries[i]])
      && (parent.Some? && parent.value in IndexOf(entries) ==> IndexOf(entries)[parent.value] < i)
  {
    var i := IndexOf(entries)[id];
    BranchStep(entries, i);
    MoveToReversed(Branch(entries, entries[i].parentId), entries[i], reversed);
  }

  // The loop the stores run: follow parent ids through the index, then reverse.
  method GetPathToRoot(entries: seq<Entry>, index: map<string, nat>, leaf: Option<string>) returns (path: seq<Entry>)
    requires WellFormed(entries) && index == IndexOf(entries)
    ensures path == Branch(entries, leaf)
  {
    if leaf.None? {
      return [];
    }
    var reversed: seq<Entry> := [];
    var current := leaf;
    ghost var bound := |entries|;
    WalkStarts(entries, leaf);
    while current.Some? && current.value in index
      invariant current.Some? && current.value in index ==> index[current.value] < bound
      invariant Ahead(entries, leaf, current, reversed)
      decreases bound
    {
      var i := index[current.value];
      WalkStep(entries, leaf, current.value, reversed);
      reversed := reversed + [entries[i]];
      current := entries[i].parentId;
      bound := i;
    }
    path := Reversed(reversed);
  }

  // Appending an entry under the leaf extends the branch by exactly that entry, and no
  // other branch changes.
  lemma {:induction false} AppendKeepsPath(entries: seq<Entry>, e: Entry, i: nat)
    requires WellFormed(entries) && WellFormed(entries + [e]) && i < |entries|
    ensures PathAt(entries + [e], i) == PathAt(entries, i)
    decreases i
  {
    ReplayStep(entries, e);
    assert ParentAt(entries + [e], i) == ParentAt(entries, i);
    match ParentAt(entries, i)
    case None =>
    case Some(p) => AppendKeepsPath(entries, e, p);
  }

  lemma AppendExtendsBranch(entries: seq<Entry>, leaf: Option<string>, e: Entry)
    requires WellFormed(entries) && WellFormed(entries + [e]) && e.parentId == leaf
    ensures Branch(entries + [e], Some(e.id)) == Branch(entries, leaf) + [e]
  {
    var all := entries + [e];
    ReplayStep(entries, e);
    BranchStep(all, |entries|);
    assert leaf != Some(e.id) by {
      assert all[|entries|] == e;
    }
    if leaf.Some? && leaf.value in IndexOf(entries) {
      AppendKeepsPath(entries, e, IndexOf(entries)[leaf.value]);
    }
  }

  // ---- In-memory storage -------------------------------------------------------------------

  class InMemorySessionStorage {
    var entries: seq<Entry>
    var index: map<string, nat>
    var leafId: Option<string>
    var labels: map<string, string>

    // The incrementally kept index and labels are what replaying the log rebuilds.
    ghost predicate Valid()
      reads this
    {
      index == IndexOf(entries) && labels == LabelsOf(entries)
    }

    constructor ()
      ensures Valid() && entries == [] && leafId == None
    {
      entries, index, leafId, labels := [], map[], None, map[];
    }

    constructor WithEntries(es: seq<Entry>)
      ensures Valid() && entries == es
      ensures leafId == if es == [] then None else Some(es[|es| - 1].id)
    {
      var idx, ls := IndexAndLabels(es);
      entries, index, labels := es, idx, ls;
      leafId := if es == [] then None else Some(es[|es| - 1].id);
    }

    // A known id is refused and nothing changes; otherwise the log grows by the entry and
    // the leaf moves to it, whatever its parent.
    method AppendEntry(e: Entry) returns (r: Result<()>)
      requires Valid()
      modifies this
      ensures Valid()
      ensures r.Ok? <==> !HasId(old(entries), e.id)
      ensures r.Ok? ==> entries == old(entries) + [e] && leafId == Some(e.id)
      ensures r.Err? ==> r.error == DuplicateEntryId(e.id) && entries == old(entries) && leafId == old(leafId)
    {
      IndexedIff(entries, e.id);
      if e.id in index {
        return Err(DuplicateEntryId(e.id));
      }
      ReplayStep(entries, e);
      labels := ApplyLabel(labels, e.kind);
      leafId := Some(e.id);
      index := index[e.id := |entries|];
      entries := entries + [e];
      return Ok(());
    }

    method SetLeafId(leaf: Option<string>)
      requires Valid()
      modifies `leafId
      ensures Valid() && leafId == leaf
    {
      leafId := leaf;
    }

    method GetEntry(id: string) returns (e: Option<Entry>)
      requires Valid()
      ensures e.Some? <==> HasId(entries, id)
      ensures e.Some? ==> e.value in entries && e.value.id == id
    {
      IndexedIff(entries, id);
      if id in index {
        return Some(entries[index[id]]);
      }
      return None;
    }

    method GetLabel(id: string) returns (found: Option<string>)
      requires Valid()
      ensures found == if id in LabelsOf(entries) then Some(LabelsOf(entries)[id]) else None
    {
      return if id in labels then Some(labels[id]) else None;
    }
  }

  // The session on top of a store (session.rs `Session`): new entries hang under the leaf.
  class Session {
    const storage: InMemorySessionStorage
    ghost var issued: set<string>

    ghost predicate Valid()
      reads this, storage
    {
      && storage.Valid()
      && WellFormed(storage.entries)
      && Mentions(issued, storage.entries, storage.leafId)
    }

    constructor (storage: InMemorySessionStorage, ghost issued: set<string>)
      requires storage.Valid() && WellFormed(storage.entries) && Mentions(issued, storage.entries, storage.leafId)
      ensures Valid() && this.storage == storage && this.issued == issued
    {
      this.storage := storage;
      this.issued := issued;
    }

    // `id` is the fresh UUID the storage hands out.
    method NextEntry(id: string, kind: EntryKind) returns (e: Entry)
      requires Valid() && id !in issued
      modifies this, storage
      ensures Valid()
      ensures e == Entry(id, old(storage.leafId), kind)
      ensures storage.entries == old(storage.entries) + [e]
      ensures storage.leafId == Some(id) && issued == old(issued) + {id}
      ensures Branch(storage.entries, storage.leafId)
           == old(Branch(storage.entries, storage.leafId)) + [e]
    {
      e := Entry(id, storage.leafId, kind);
      AppendKeepsWellFormed(storage.entries, issued, storage.leafId, e);
      AppendExtendsBranch(storage.entries, storage.leafId, e);
      var r := storage.AppendEntry(e);
      issued := issued + {id};
      assert r.Ok?;
    }

    // Moving the leaf checks the target; a summary becomes an entry under it.
    method MoveTo(target: Option<string>, summary: Option<string>, id: string) returns (r: Result<Option<string>>)
      requires Valid() && id !in issued
      modifies this, storage
      ensures Valid()
      ensures r.Err? <==> target.Some? && !HasId(old(storage.entries), target.value)
      ensures r.Err? ==> storage.entries == old(storage.entries) && storage.leafId == old(storage.leafId)
      ensures r.Ok? && summary.None? ==>
                && r.value == None && storage.entries == old(storage.entries) && storage.leafId == target
      ensures r.Ok? && summary.Some? ==>
                && r.value == Some(id) && storage.leafId == Some(id)
                && storage.entries == old(storage.entries)
                   + [Entry(id, target, BranchSummaryEntry(if target.Some? then target.value else "root", summary.value))]
                && Branch(storage.entries, storage.leafId)
                   == old(Branch(storage.entries, target)) + [storage.entries[|storage.entries| - 1]]
                && ContextMessages(Branch(storage.entries, storage.leafId)) == ContextMessages(old(Branch(storage.entries, target)))
                   + if summary.value == "" then []
                     else [Custom(BranchSummary(summary.value, if target.Some? then target.value else "root"))]
    {
      if target.Some? {
        var found := storage.GetEntry(target.value);
        if found.None? {
          return Err(NotFound(target.value));
        }
      }
      storage.SetLeafId(target);
      if summary.None? {
        return Ok(None);
      }
      var e := Entry(id, target, BranchSummaryEntry(if target.Some? then target.value else "root", summary.value));
      AppendKeepsWellFormed(storage.entries, issued, storage.leafId, e);
      AppendExtendsBranch(storage.entries, target, e);
      WhatAnEntryAdds(Branch(storage.entries, target), e);
      var appended := storage.AppendEntry(e);
      issued := issued + {id};
      assert appended.Ok?;
      return Ok(Some(id));
    }
  }

  // ---- Fork ------------------------------------------------------------------------------

  datatype ForkPosition = Before | At

  predicate IsUserMessage(kind: EntryKind) {
    kind.MessageEntry? && Role(kind.message) == "user"
  }

  // Before a user message a branch can be taken up again.
  lemma IsUserMessageIff(kind: EntryKind)
    ensures !kind.MessageEntry? ==> !IsUserMessage(kind)
    ensures kind.MessageEntry? ==> var m := kind.message;
      IsUserMessage(kind) <==> (m.Standard? && m.message.User?) || (m.Custom? && m.payload.Other? && m.payload.role == "user")
  {
    if kind.MessageEntry? {
      RolesAre(kind.message);
    }
  }

  method EntriesToFork(entries: seq<Entry>, index: map<string, nat>, entryId: Option<string>, position: ForkPosition)
    returns (r: Result<seq<Entry>>)
    requires WellFormed(entries) && index == IndexOf(entries)
    ensures entryId.None? ==> r == Ok(entries)
    ensures entryId.Some? && entryId.value !in IndexOf(entries) ==> r == Err(InvalidForkTarget(entryId.value))
    ensures entryId.Some? && entryId.value in IndexOf(entries) ==>
              var target := entries[IndexOf(entries)[entryId.value]];
              r == if position.At? then Ok(Branch(entries, entryId))
                   else if IsUserMessage(target.kind) then Ok(Branch(entries, target.parentId))
                   else Err(InvalidForkTarget(entryId.value))
  {
    if entryId.None? {
      return Ok(entries);
    }
    if entryId.value !in index {
      return Err(InvalidForkTarget(entryId.value));
    }
    var target := entries[index[entryId.value]];
    var leaf := Some(target.id);
    if position.Before? {
      if !IsUserMessage(target.kind) {
        return Err(InvalidForkTarget(entryId.value));
      }
      leaf := target.parentId;
    }
    var path := GetPathToRoot(entries, index, leaf);
    return Ok(path);
  }

  // Replaying a path as a log of its own gives the path back: a fork taken at an entry
  // has that entry's branch as its whole log, its leaf's branch, and its context.
  lemma {:induction false} PathReplaysAsItself(path: seq<Entry>, i: nat)
    requires WellFormed(path) && IsChain(path) && i < |path|
    ensures PathAt(path, i) == path[..i + 1]
    decreases i
  {
    if i > 0 {
      PathReplaysAsItself(path, i - 1);
      assert path[i].parentId == Some(path[i - 1].id);
      IdsAreIndexed(path, i - 1);
      assert IndexOf(path)[path[i - 1].id] == i - 1;
      assert path[..i + 1] == path[..i] + [path[i]];
    } else {
      RootHasNoParent(path);
    }
  }

  lemma RootHasNoParent(path: seq<Entry>)
    requires WellFormed(path) && path != []
    ensures path[0].parentId.Some? ==> path[0].parentId.value !in IndexOf(path)
  {
    var index := IndexOf(path);
    forall id | id in index
      ensures path[0].parentId != Some(id)
    {
      assert path[index[id]].id == id;
    }
  }

  lemma ForkKeepsBranch(entries: seq<Entry>, leaf: Option<string>)
    requires WellFormed(entries)
    ensures var forked := Branch(entries, leaf);
            && WellFormed(forked)
            && (forked != [] ==> Some(forked[|forked| - 1].id) == leaf)
            && Branch(forked, if forked == [] then None else Some(forked[|forked| - 1].id)) == forked
  {
    var forked := Branch(entries, leaf);
    if forked != [] {
      var at := IndexOf(entries)[leaf.value];
      var n := |forked| - 1;
      PathIsChain(entries, |entries|);
      assert IsRootedChain(entries, PathAt(entries, at), at);
      PathReplaysAsItself(forked, n);
      IdsAreIndexed(forked, n);
      assert forked[..n + 1] == forked;
    }
  }

  // Forking a whole session copies the log but not the leaf: the copy opens on the last
  // entry, so it shows the source's branch exactly when the source's leaf is there too.
  lemma WholeForkKeepsBranchIff(entries: seq<Entry>, leaf: Option<string>)
    requires WellFormed(entries) && entries != []
    ensures Branch(entries, Some(entries[|entries| - 1].id)) == Branch(entries, leaf)
       <==> leaf == Some(entries[|entries| - 1].id)
  {
  }

  // ---- Building the context ------------------------------------------------------------

  function MessagesOf(e: Entry): (ms: seq<AgentMessage>)
    ensures |ms| <= 1
  {
    if e.kind.MessageEntry? then [e.kind.message]
    else if e.kind.CustomMessage? then [Custom(Other("custom", e.kind.customType, e.kind.content))]
    else if e.kind.BranchSummaryEntry? && e.kind.branchSummary != "" then [Custom(BranchSummary(e.kind.branchSummary, e.kind.fromId))]
    else []
  }

  // The messages of path[lo..hi].
  function MessagesIn(path: seq<Entry>, lo: nat, hi: nat): seq<AgentMessage>
    requires hi <= |path|
    decreases hi
  {
    if hi <= lo then [] else MessagesIn(path, lo, hi - 1) + MessagesOf(path[hi - 1])
  }

  // Position of the last compaction before n.
  function LastCompaction(path: seq<Entry>, n: nat): (c: Option<nat>)
    requires n <= |path|
    ensures c.Some? ==> c.value < n && path[c.value].kind.Compaction?
  {
    if n == 0 then None
    else if path[n - 1].kind.Compaction? then Some(n - 1)
    else LastCompaction(path, n - 1)
  }

  // Position of the first entry with this id before n, or n.
  function FirstWithId(path: seq<Entry>, id: string, n: nat): (k: nat)
    requires n <= |path|
    ensures k <= n && (k < n ==> path[k].id == id)
  {
    if n == 0 then 0
    else
      var k := FirstWithId(path, id, n - 1);
      if k < n - 1 || path[n - 1].id == id then k else n
  }

  lemma {:induction false} NoneEarlierOrLater(path: seq<Entry>, id: string, n: nat, j: nat)
    requires j < n <= |path|
    ensures path[j].id == id ==> FirstWithId(path, id, n) <= j
    ensures path[j].kind.Compaction? ==> LastCompaction(path, n).Some? && j <= LastCompaction(path, n).value
  {
    if j < n - 1 {
      NoneEarlierOrLater(path, id, n - 1, j);
    }
  }

  // A compaction stands for everything before the entry it kept first; if that entry is
  // not before it on the branch, for everything before itself.
  function ContextMessages(path: seq<Entry>): seq<AgentMessage> {
    match LastCompaction(path, |path|)
    case None => MessagesIn(path, 0, |path|)
    case Some(c) =>
      var kind := path[c].kind;
      [Custom(CompactionSummary(kind.summary, kind.tokensBefore))]
      + MessagesIn(path, FirstWithId(path, kind.firstKeptEntryId, c), c) + MessagesIn(path, c + 1, |path|)
  }

  // The settings in force: for each, the last entry on the path that sets it.
  datatype Settings = Settings(thinkingLevel: string, model: Option<(string, string)>, activeTools: Option<seq<string>>)

  function ApplySetting(s: Settings, kind: EntryKind): Settings {
    match kind
    case ThinkingLevelChange(l) => s.(thinkingLevel := l)
    case ModelChange(p, m) => s.(model := Some((p, m)))
    case ActiveToolsChange(names) => s.(activeTools := Some(names))
    case MessageEntry(m) =>
      if m.Standard? && m.message.Assistant?
      then s.(model := Some((m.message.assistant.provider, m.message.assistant.model))) else s
    case _ => s
  }

  function SettingsUpTo(path: seq<Entry>, n: nat): Settings
    requires n <= |path|
  {
    if n == 0 then Settings("off", None, None)
    else ApplySetting(SettingsUpTo(path, n - 1), path[n - 1].kind)
  }

  datatype Setting = TheLevel | TheModel | TheTools

  // A reply, too, names the model that gave it.
  predicate Sets(kind: EntryKind, what: Setting) {
    match what
    case TheLevel => kind.ThinkingLevelChange?
    case TheTools => kind.ActiveToolsChange?
    case TheModel => kind.ModelChange? || (kind.MessageEntry? && kind.message.Standard? && kind.message.message.Assistant?)
  }

  // The setting has the value the entry carries; for a model, provider first.
  ghost predicate Carries(kind: EntryKind, what: Setting, s: Settings)
    requires Sets(kind, what)
  {
    match what
    case TheLevel => s.thinkingLevel == kind.level
    case TheTools => s.activeTools == Some(kind.activeToolNames)
    case TheModel =>
      if kind.ModelChange? then s.model == Some((kind.provider, kind.modelId))
      else s.model == Some((kind.message.message.assistant.provider, kind.message.message.assistant.model))
  }

  ghost predicate IsDefault(what: Setting, s: Settings) {
    match what
    case TheLevel => s.thinkingLevel == "off"
    case TheTools => s.activeTools == None
    case TheModel => s.model == None
  }

  ghost predicate LastToSet(path: seq<Entry>, n: nat, what: Setting, i: nat)
    requires n <= |path|
  {
    i < n && Sets(path[i].kind, what) && forall k :: i < k < n ==> !Sets(path[k].kind, what)
  }

  // The setting has the value of the last of the first n entries that sets it, and its
  // default when none does.
  ghost predicate IsLastGiven(path: seq<Entry>, n: nat, what: Setting, s: Settings)
    requires n <= |path|
  {
    && (forall i: nat :: LastToSet(path, n, what, i) ==> Carries(path[i].kind, what, s))
    && (NoneSets(path, n, what) ==> IsDefault(what, s))
  }

  ghost predicate NoneSets(path: seq<Entry>, n: nat, what: Setting)
    requires n <= |path|
  {
    forall i :: 0 <= i < n ==> !Sets(path[i].kind, what)
  }

  lemma OneMoreEntry(path: seq<Entry>, n: nat, what: Setting, s: Settings, t: Settings)
    requires 0 < n <= |path| && IsLastGiven(path, n - 1, what, s) && t == ApplySetting(s, path[n - 1].kind)
    ensures IsLastGiven(path, n, what, t)
  {
    var kind := path[n - 1].kind;
    OneSetting(s, kind, what);
    forall i: nat | LastToSet(path, n, what, i)
      ensures Carries(path[i].kind, what, t)
    {
      if i < n - 1 {
        assert LastToSet(path, n - 1, what, i);
      }
    }
    assert NoneSets(path, n, what) ==> NoneSets(path, n - 1, what) && !Sets(kind, what);
  }

  lemma OneSetting(s: Settings, kind: EntryKind, what: Setting)
    ensures var t := ApplySetting(s, kind);
      if Sets(kind, what) then Carries(kind, what, t)
      else (IsDefault(what, s) ==> IsDefault(what, t)) && forall k :: Sets(k, what) && Carries(k, what, s) ==> Carries(k, what, t)
  {
  }

  lemma {:induction false} LastExists(path: seq<Entry>, n: nat, what: Setting)
    requires n <= |path|
    ensures (exists i: nat :: LastToSet(path, n, what, i)) || NoneSets(path, n, what)
  {
    if n > 0 {
      if Sets(path[n - 1].kind, what) {
        assert LastToSet(path, n, what, n - 1);
      } else {
        LastExists(path, n - 1, what);
        if !NoneSets(path, n - 1, what) {
          var m := n - 1;
          var i: nat :| LastToSet(path, m, what, i);
          assert LastToSet(path, n, what, i);
        }
      }
    }
  }

  // All three, which determines them.
  ghost predicate AreLastGiven(path: seq<Entry>, n: nat, s: Settings)
    requires n <= |path|
  {
    forall what :: IsLastGiven(path, n, what, s)
  }

  lemma OneMoreEntryForAll(path: seq<Entry>, n: nat, s: Settings, t: Settings)
    requires 0 < n <= |path| && AreLastGiven(path, n - 1, s) && t == ApplySetting(s, path[n - 1].kind)
    ensures AreLastGiven(path, n, t)
  {
    forall what
      ensures IsLastGiven(path, n, what, t)
    {
      OneMoreEntry(path, n, what, s, t);
    }
  }

  lemma {:induction false} SettingsAreLastGiven(path: seq<Entry>, n: nat)
    requires n <= |path|
    ensures AreLastGiven(path, n, SettingsUpTo(path, n))
  {
    if n > 0 {
      SettingsAreLastGiven(path, n - 1);
      OneMoreEntryForAll(path, n, SettingsUpTo(path, n - 1), SettingsUpTo(path, n));
    }
  }

  lemma SettingsUnique(path: seq<Entry>, a: Settings, b: Settings)
    requires AreLastGiven(path, |path|, a) && AreLastGiven(path, |path|, b)
    ensures a == b
  {
    assert IsLastGiven(path, |path|, TheLevel, a) && IsLastGiven(path, |path|, TheLevel, b);
    assert IsLastGiven(path, |path|, TheTools, a) && IsLastGiven(path, |path|, TheTools, b);
    assert IsLastGiven(path, |path|, TheModel, a) && IsLastGiven(path, |path|, TheModel, b);
    LastExists(path, |path|, TheLevel);
    LastExists(path, |path|, TheTools);
    LastExists(path, |path|, TheModel);
  }

  method AppendMessages(path: seq<Entry>, lo: nat, hi: nat, messages: seq<AgentMessage>) returns (out: seq<AgentMessage>)
    requires lo <= hi <= |path|
    ensures out == messages + MessagesIn(path, lo, hi)
  {
    out := messages;
    for i := lo to hi
      invariant out == messages + MessagesIn(path, lo, i)
    {
      out := out + MessagesOf(path[i]);
    }
  }

  method AppendKept(path: seq<Entry>, firstKept: string, n: nat, messages: seq<AgentMessage>) returns (out: seq<AgentMessage>)
    requires n <= |path|
    ensures out == messages + MessagesIn(path, FirstWithId(path, firstKept, n), n)
  {
    out := messages;
    var found := false;
    for i := 0 to n
      invariant found <==> FirstWithId(path, firstKept, i) < i
      invariant out == messages + MessagesIn(path, FirstWithId(path, firstKept, i), i)
    {
      if path[i].id == firstKept {
        found := true;
      }
      if found {
        out := out + MessagesOf(path[i]);
      }
    }
  }

  method ScanBranch(path: seq<Entry>) returns (settings: Settings, compaction: Option<nat>)
    ensures settings == SettingsUpTo(path, |path|) && compaction == LastCompaction(path, |path|)
    ensures AreLastGiven(path, |path|, settings)
  {
    settings, compaction := Settings("off", None, None), None;
    for i := 0 to |path|
      invariant settings == SettingsUpTo(path, i)
      invariant compaction == LastCompaction(path, i)
    {
      settings := ApplySetting(settings, path[i].kind);
      if path[i].kind.Compaction? {
        compaction := Some(i);
      }
    }
    SettingsAreLastGiven(path, |path|);
  }

  datatype SessionContext = SessionContext(messages: seq<AgentMessage>, settings: Settings)

  method BuildSessionContext(path: seq<Entry>) returns (context: SessionContext)
    ensures context.settings == SettingsUpTo(path, |path|) && AreLastGiven(path, |path|, context.settings)
    ensures context.messages == ContextMessages(path)
  {
    var settings, compaction := ScanBranch(path);
    var messages: seq<AgentMessage> := [];
    match compaction {
      case None =>
        messages := AppendMessages(path, 0, |path|, []);
      case Some(c) =>
        messages := [Custom(CompactionSummary(path[c].kind.summary, path[c].kind.tokensBefore))];
        messages := AppendKept(path, path[c].kind.firstKeptEntryId, c, messages);
        messages := AppendMessages(path, c + 1, |path|, messages);
    }
    context := SessionContext(messages, settings);
  }

  // What lies before n on a branch reads the same however the branch goes on.
  lemma {:induction false} ReadsSamePrefix(path: seq<Entry>, e: Entry, id: string, lo: nat, n: nat)
    requires n <= |path|
    ensures MessagesIn(path + [e], lo, n) == MessagesIn(path, lo, n)
    ensures LastCompaction(path + [e], n) == LastCompaction(path, n)
    ensures FirstWithId(path + [e], id, n) == FirstWithId(path, id, n)
    decreases n
  {
    if n > 0 {
      assert (path + [e])[n - 1] == path[n - 1];
      ReadsSamePrefix(path, e, id, lo, n - 1);
    }
  }

  // Appending an entry changes only the setting it carries.
  lemma AppendExtendsSettings(path: seq<Entry>, e: Entry)
    ensures SettingsUpTo(path + [e], |path| + 1) == ApplySetting(SettingsUpTo(path, |path|), e.kind)
  {
    assert (path + [e])[|path|] == e;
    SettingsSamePrefix(path, e, |path|);
  }

  lemma {:induction false} SettingsSamePrefix(path: seq<Entry>, e: Entry, n: nat)
    requires n <= |path|
    ensures SettingsUpTo(path + [e], n) == SettingsUpTo(path, n)
    decreases n
  {
    if n > 0 {
      assert (path + [e])[n - 1] == path[n - 1];
      SettingsSamePrefix(path, e, n - 1);
    }
  }

  // Appending anything but a compaction to a branch appends exactly that entry's message
  // to the built context.
  lemma AppendExtendsContext(path: seq<Entry>, e: Entry)
    requires !e.kind.Compaction?
    ensures ContextMessages(path + [e]) == ContextMessages(path) + MessagesOf(e)
  {
    var n := |path|;
    var all := path + [e];
    assert all[n] == e;
    ReadsSamePrefix(path, e, "", 0, n);
    match LastCompaction(path, n)
    case None =>
    case Some(c) =>
      var kind := path[c].kind;
      var kept := FirstWithId(path, kind.firstKeptEntryId, c);
      var head := [Custom(CompactionSummary(kind.summary, kind.tokensBefore))];
      ReadsSamePrefix(path, e, kind.firstKeptEntryId, kept, c);
      ReadsSamePrefix(path, e, "", c + 1, n);
      assert LastCompaction(all, n + 1) == Some(c) && all[c] == path[c];
      calc {
        ContextMessages(all);
        head + MessagesIn(path, kept, c) + (MessagesIn(path, c + 1, n) + MessagesOf(e));
        head + MessagesIn(path, kept, c) + MessagesIn(path, c + 1, n) + MessagesOf(e);
      }
  }

  // A message is read back as it is, a custom message under its own type, a branch summary
  // that says something as a summary of the branch it left; nothing else is read as one.
  lemma {:induction false} WhatAnEntryAdds(path: seq<Entry>, e: Entry)
    requires !e.kind.Compaction?
    ensures var more := match e.kind
              case MessageEntry(m) => [m]
              case CustomMessage(ty, content) => [Custom(Other("custom", ty, content))]
              case BranchSummaryEntry(from, text) => if text == "" then [] else [Custom(BranchSummary(text, from))]
              case _ => [];
            ContextMessages(path + [e]) == ContextMessages(path) + more
  {
    AppendExtendsContext(path, e);
  }

  // What a compaction stands for is read as its summary, then what it kept, then what came
  // after it.
  lemma {:induction false} CompactionIsReadAsSummary(path: seq<Entry>, e: Entry, k: nat)
    requires e.kind.Compaction? && k < |path| && path[k].id == e.kind.firstKeptEntryId
    requires forall j :: 0 <= j < k ==> path[j].id != e.kind.firstKeptEntryId
    ensures ContextMessages(path + [e]) == [Custom(CompactionSummary(e.kind.summary, e.kind.tokensBefore))] + MessagesIn(path, k, |path|)
  {
    var all, id, n := path + [e], e.kind.firstKeptEntryId, |path|;
    assert all[n] == e;
    assert LastCompaction(all, n + 1) == Some(n);
    ReadsSamePrefix(path, e, id, k, n);
    NoneEarlierOrLater(path, id, n, k);
    assert FirstWithId(path, id, n) == k;
    assert MessagesIn(all, n + 1, n + 1) == [];
  }
}
