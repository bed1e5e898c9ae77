/** The disk store of a node and its quota: first the store used by one caller at a time, then
    the accounting when any number of `store` calls interleave. */
module DiskStore {
  import opened Protocol

  type Name = string
  type Data = seq<bv8>

  // ---------- sums over maps ----------

  ghost function Sum<K>(m: map<K, nat>): nat {
    if m == map[] then 0
    else
      var k :| k in m;
      m[k] + Sum(m - {k})
  }

  lemma {:induction false} SumWithout<K>(m: map<K, nat>, k: K)
    requires k in m
    ensures Sum(m) == m[k] + Sum(m - {k})
  {
    var j :| j in m && Sum(m) == m[j] + Sum(m - {j});
    if j != k {
      SumWithout(m - {j}, k);
      SumWithout(m - {k}, j);
      assert m - {j} - {k} == m - {k} - {j};
    }
  }

  lemma SumWith<K>(m: map<K, nat>, k: K, v: nat)
    ensures Sum(m[k := v]) + (if k in m then m[k] else 0) == Sum(m) + v
  {
    SumWithout(m[k := v], k);
    if k in m {
      SumWithout(m, k);
      assert m[k := v] - {k} == m - {k};
    } else {
      assert m[k := v] - {k} == m;
    }
  }

  lemma {:induction false} SumAtMost<K>(m: map<K, nat>, most: nat)
    requires forall k :: k in m ==> m[k] <= most
    ensures Sum(m) <= |m| * most
  {
    if m != map[] {
      var k :| k in m;
      SumWithout(m, k);
      SumAtMost(m - {k}, most);
      hide Sum;
      var n := |m - {k}|;
      assert (m - {k}).Keys == m.Keys - {k} && |m| == n + 1;
      OneMore(n, most);
    }
  }

  lemma OneMore(n: nat, x: nat)
    ensures n * x + x == (n + 1) * x
  {
  }

  lemma {:induction false} SumMonotone<K>(m: map<K, nat>, n: map<K, nat>)
    requires forall k :: k in m ==> k in n && m[k] <= n[k]
    ensures Sum(m) <= Sum(n)
  {
    if k :| k in m {
      SumWithout(m, k);
      SumWithout(n, k);
      SumMonotone(m - {k}, n - {k});
    }
  }

  function Sizes(files: map<Name, Data>): map<Name, nat> {
    map f | f in files :: |files[f]|
  }

  /** The bytes really stored. */
  ghost function Total(files: map<Name, Data>): nat {
    Sum(Sizes(files))
  }

  lemma TotalWith(files: map<Name, Data>, f: Name, d: Data)
    ensures Total(files[f := d]) + SizeOf(files, f) == Total(files) + |d|
  {
    assert Sizes(files[f := d]) == Sizes(files)[f := |d|];
    SumWith(Sizes(files), f, |d|);
  }

  // ---------- the store ----------

  function Minus(a: nat, b: nat): nat {
    if a <= b then 0 else a - b
  }

  /** `metadata(..).ok().map(len).unwrap_or(0)` */
  function SizeOf(files: map<Name, Data>, f: Name): nat {
    if f in files then |files[f]| else 0
  }

  datatype Entry =
    | File(name: Name, data: Data)
    | Dir(name: Name, readable: bool, entries: seq<Entry>)
    | Other(name: Name)

  function Plus(a: Option<nat>, b: Option<nat>): Option<nat> {
    if a.Some? && b.Some? then Some(a.value + b.value) else None
  }

  /** Bytes below an entry; `None` when some directory cannot be read. */
  function TreeSize(e: Entry): Option<nat>
    decreases e, 0
  {
    match e
    case File(_, data) => Some(|data|)
    case Dir(_, readable, entries) => if readable then ListSize(entries) else None
    case Other(_) => Some(0)
  }

  function ListSize(es: seq<Entry>): Option<nat>
    decreases es, 1
  {
    if es == [] then Some(0) else Plus(ListSize(es[..|es| - 1]), TreeSize(es[|es| - 1]))
  }

  function Nodes(e: Entry): nat
    decreases e, 0
  {
    if e.Dir? then 1 + ListNodes(e.entries) else 1
  }

  function ListNodes(es: seq<Entry>): nat
    decreases es, 1
  {
    if es == [] then 0 else ListNodes(es[..|es| - 1]) + Nodes(es[|es| - 1])
  }

  lemma ListsGrow(es: seq<Entry>, e: Entry)
    ensures ListSize(es + [e]) == Plus(ListSize(es), TreeSize(e))
    ensures ListNodes(es + [e]) == ListNodes(es) + Nodes(e)
  {
    assert (es + [e])[..|es|] == es;
  }

  /** `total` bytes counted and `stack` still to visit stand for `sum`, `todo` and `entries`. */
  ghost predicate Stands(total: nat, stack: seq<Entry>, sum: nat, todo: seq<Entry>, entries: seq<Entry>) {
    && (forall e :: e in stack ==> e.Dir?)
    && Plus(Some(total), ListSize(stack)) == Plus(Plus(Some(sum), ListSize(todo)), ListSize(entries))
    && ListNodes(stack) <= ListNodes(todo) + ListNodes(entries)
  }

  lemma VisitFile(total: nat, stack: seq<Entry>, sum: nat, todo: seq<Entry>, entries: seq<Entry>, e: Entry)
    requires Stands(total, stack, sum, todo, entries) && e.File?
    ensures Stands(total + |e.data|, stack, sum, todo, entries + [e])
  {
    ListsGrow(entries, e);
    assert TreeSize(e) == Some(|e.data|) && Nodes(e) == 1;
    hide ListSize, ListNodes, TreeSize, Nodes;
  }

  lemma VisitDir(total: nat, stack: seq<Entry>, sum: nat, todo: seq<Entry>, entries: seq<Entry>, e: Entry)
    requires Stands(total, stack, sum, todo, entries) && e.Dir?
    ensures Stands(total, stack + [e], sum, todo, entries + [e])
  {
    ListsGrow(entries, e);
    ListsGrow(stack, e);
    hide ListSize, ListNodes, TreeSize, Nodes;
  }

  lemma VisitOther(total: nat, stack: seq<Entry>, sum: nat, todo: seq<Entry>, entries: seq<Entry>, e: Entry)
    requires Stands(total, stack, sum, todo, entries) && e.Other?
    ensures Stands(total, stack, sum, todo, entries + [e])
  {
    ListsGrow(entries, e);
    assert TreeSize(e) == Some(0) && Nodes(e) == 1;
    hide ListSize, ListNodes, TreeSize, Nodes;
  }

  /** The inner loop of `directory_size_sync`: one directory's files are added up, its
      sub-directories are left for later. */
  method VisitDirectory(entries: seq<Entry>, todo: seq<Entry>, sum: nat) returns (total: nat, stack: seq<Entry>)
    requires forall e :: e in todo ==> e.Dir?
    ensures forall e :: e in stack ==> e.Dir?
    ensures Plus(Some(total), ListSize(stack)) == Plus(Plus(Some(sum), ListSize(todo)), ListSize(entries))
    ensures ListNodes(stack) <= ListNodes(todo) + ListNodes(entries)
  {
    total, stack := sum, todo;
    assert Stands(total, stack, sum, todo, entries[..0]);
    for k := 0 to |entries|
      invariant Stands(total, stack, sum, todo, entries[..k])
    {
      hide Stands;
      assert entries[..k + 1] == entries[..k] + [entries[k]];
      match entries[k]
      case File(_, data) =>
        VisitFile(total, stack, sum, todo, entries[..k], entries[k]);
        total := total + |data|;
      case Dir(_, _, _) =>
        VisitDir(total, stack, sum, todo, entries[..k], entries[k]);
        stack := stack + [entries[k]];
      case Other(_) =>
        VisitOther(total, stack, sum, todo, entries[..k], entries[k]);
    }
    assert entries[..|entries|] == entries;
  }

  /** What the scan of a path has to find: 0 when nothing is there, a failure when what is there
      cannot be read as a directory. */
  function ScanSize(root: Option<Entry>): Option<nat> {
    if root.None? then Some(0) else if root.value.Dir? then TreeSize(root.value) else None
  }

  /** `directory_size_sync`: a stack of directories still to visit. */
  method DirectorySize(root: Option<Entry>) returns (size: Option<nat>)
    ensures size == ScanSize(root)
  {
    if root.None? {
      return Some(0);
    }
    if !root.value.Dir? {
      return None;
    }
    var total: nat := 0;
    var stack := [root.value];
    assert stack[..0] == [];
    while stack != []
      invariant forall e :: e in stack ==> e.Dir?
      invariant TreeSize(root.value) == Plus(Some(total), ListSize(stack))
      decreases ListNodes(stack)
    {
      var dir := stack[|stack| - 1];
      assert dir in stack && Nodes(dir) == 1 + ListNodes(dir.entries);
      ghost var before := ListNodes(stack);
      stack := stack[..|stack| - 1];
      assert before == ListNodes(stack) + 1 + ListNodes(dir.entries);
      if !dir.readable {
        return None;
      }
      total, stack := VisitDirectory(dir.entries, stack, total);
    }
    size := Some(total);
  }

  // ---------- the files of the store's own directory ----------

  function FilesOf(es: seq<Entry>): map<Name, Data> {
    if es == [] then map[]
    else
      var rest, e := FilesOf(es[..|es| - 1]), es[|es| - 1];
      if e.File? then rest[e.name := e.data] else rest
  }

  predicate DistinctNames(es: seq<Entry>) {
    forall i, j :: 0 <= i < j < |es| ==> es[i].name != es[j].name
  }

  lemma {:induction false} FilesHaveNames(es: seq<Entry>, f: Name)
    requires f in FilesOf(es)
    ensures exists i :: 0 <= i < |es| && es[i].name == f
  {
    var rest, e := es[..|es| - 1], es[|es| - 1];
    if !(e.File? && e.name == f) {
      FilesHaveNames(rest, f);
      var i :| 0 <= i < |rest| && rest[i].name == f;
      assert es[i].name == f;
    }
  }

  /** What the scan counts covers every file of the directory. */
  lemma {:induction false} ScanCoversFiles(es: seq<Entry>)
    requires DistinctNames(es) && ListSize(es).Some?
    ensures Total(FilesOf(es)) <= ListSize(es).value
  {
    if es == [] {
      assert Sizes(FilesOf(es)) == map[];
    } else {
      var rest, e := es[..|es| - 1], es[|es| - 1];
      ScanCoversFiles(rest);
      if e.File? {
        TotalWith(FilesOf(rest), e.name, e.data);
      }
    }
  }

  /** The files `store` and `load` can reach. */
  function FilesAt(root: Option<Entry>): map<Name, Data> {
    if root.Some? && root.value.Dir? then FilesOf(root.value.entries) else map[]
  }

  lemma ScanCoversPath(root: Option<Entry>)
    requires root.Some? && root.value.Dir? ==> DistinctNames(root.value.entries)
    requires ScanSize(root).Some?
    ensures Total(FilesAt(root)) <= ScanSize(root).value
  {
    if root.Some? {
      ScanCoversFiles(root.value.entries);
    } else {
      assert Sizes(map[]) == map[];
    }
  }

  // ---------- one caller at a time ----------

  class DiskStore {
    var files: map<Name, Data>
    var usage: nat
    const quota: nat

    /** The counter covers what is stored. */
    ghost predicate Covered()
      reads this
    {
      Total(files) <= usage
    }

    /** Starts with what is at the path once the directory was created, or that failed. A scan that
        fails makes the counter start at 0, which covers the files only if there is nothing in them. */
    constructor (dir: Option<Entry>, quotaMb: nat)
      requires dir.Some? && dir.value.Dir? ==> DistinctNames(dir.value.entries)
      ensures files == FilesAt(dir) && quota == quotaMb * 1024 * 1024
      ensures usage == if ScanSize(dir).Some? then ScanSize(dir).value else 0
      ensures Covered() <==> ScanSize(dir).Some? || Total(files) == 0
    {
      var size := DirectorySize(dir);
      files := FilesAt(dir);
      usage := if size.Some? then size.value else 0;
      quota := quotaMb * 1024 * 1024;
      new;
      if size.Some? {
        ScanCoversPath(dir);
      }
    }

    /** `written` is whether `fs::write` succeeds. A store is refused if and only if the counter, less
        what it holds for the file that is replaced, and the new length exceed the quota. Usage never
        goes down, so it stays above the bytes stored, and an admitted write keeps it within the quota. */
    method Store(id: Name, data: Data, written: bool) returns (ok: bool)
      modifies this
      ensures var was := if id in old(files) then |old(files)[id]| else 0;
              ok <==> written && (if was <= old(usage) then old(usage) - was + |data| else |data|) <= quota
      ensures ok ==> files == old(files)[id := data]
      ensures var was := if id in old(files) then |old(files)[id]| else 0;
              ok ==> usage == if was < |data| then old(usage) + (|data| - was) else old(usage)
      ensures !ok ==> files == old(files) && usage == old(usage)
      ensures old(Covered()) ==> Covered()
      ensures old(Covered()) && old(usage) <= quota ==> Total(files) <= usage <= quota
    {
      var oldSize := SizeOf(files, id);
      var newUsage := Minus(usage, oldSize) + |data|;
      if newUsage > quota || !written {
        return false;
      }
      TotalWith(files, id, data);
      SizeWithinTotal(files, id);
      files := files[id := data];
      usage := usage + Minus(|data|, oldSize);
      ok := true;
    }

    method Load(id: Name) returns (r: Option<Data>)
      ensures r == if id in files then Some(files[id]) else None
    {
      r := if id in files then Some(files[id]) else None;
    }

    /** Every stored file once, with its size, and what is left of the quota. */
    method Stats() returns (entries: seq<(Name, nat)>, free: nat)
      ensures multiset(entries) == multiset(Sizes(files).Items)
      ensures free == Minus(quota, usage)
      ensures Covered() && usage <= quota ==> Total(files) + free <= quota
    {
      entries := [];
      var todo := Sizes(files).Items;
      while todo != {}
        invariant todo <= Sizes(files).Items
        invariant multiset(entries) + multiset(todo) == multiset(Sizes(files).Items)
        decreases |todo|
      {
        var e :| e in todo;
        entries := entries + [e];
        assert todo == (todo - {e}) + {e};
        todo := todo - {e};
      }
      free := Minus(quota, usage);
    }
  }

  // ---------- what a node answers ----------

  function Lookup(files: map<Name, Data>, key: Name): Option<Data> {
    if key in files then Some(files[key]) else None
  }

  /** What the last store under `key` that was acknowledged put there. */
  function Latest(files: map<Name, Data>, tasks: seq<Task>, results: seq<TaskResult>, key: Name): Option<Data>
    requires |tasks| == |results|
  {
    var n := |tasks|;
    if n == 0 then Lookup(files, key)
    else if tasks[n - 1].StoreData? && tasks[n - 1].key == key && results[n - 1].Stored? then Some(tasks[n - 1].data)
    else Latest(files, tasks[..n - 1], results[..n - 1], key)
  }

  predicate IsDataTask(task: Task) {
    task.StoreData? || task.RetrieveData?
  }

  /** A retrieval is answered with the very bytes, or with an error if there are none. */
  predicate AnswersWith(result: TaskResult, d: Option<Data>) {
    result == match d case Some(data) => Bytes(data) case None => Error("Key not found")
  }

  /** What a data task does to the files, and what it answers if it is a retrieval. */
  predicate Executed(files: map<Name, Data>, task: Task, result: TaskResult, files': map<Name, Data>) {
    && files' == (if task.StoreData? && result.Stored? then files[task.key := task.data] else files)
    && (task.RetrieveData? ==> AnswersWith(result, Lookup(files, task.key)))
  }

  /** The `StoreData` and `RetrieveData` arms of `execute_node_task` on a disk node; the text of an
      error is not modelled. */
  method ExecuteData(store: DiskStore, task: Task, written: bool) returns (result: TaskResult)
    requires IsDataTask(task)
    modifies store
    ensures Executed(old(store.files), task, result, store.files)
    ensures task.StoreData? ==> (result.Stored? <==>
              written && Minus(old(store.usage), SizeOf(old(store.files), task.key)) + |task.data| <= store.quota)
    ensures old(store.Covered()) && old(store.usage) <= store.quota ==> store.Covered() && store.usage <= store.quota
  {
    match task
    case StoreData(key, data) =>
      var ok := store.Store(key, data, written);
      result := if ok then Stored else Error("not stored");
    case RetrieveData(key) =>
      var d := store.Load(key);
      result := if d.Some? then Bytes(d.value) else Error("Key not found");
  }

  /** Retrievals answer with the last acknowledged store, and so does the disk itself. */
  ghost predicate ReadsBack(start: map<Name, Data>, files: map<Name, Data>, tasks: seq<Task>, results: seq<TaskResult>) {
    && |results| == |tasks|
    && (forall i :: 0 <= i < |tasks| && tasks[i].RetrieveData? ==>
          AnswersWith(results[i], Latest(start, tasks[..i], results[..i], tasks[i].key)))
    && (forall key :: Lookup(files, key) == Latest(start, tasks, results, key))
  }

  /** A store whose key already has at least as many bytes is acknowledged whenever it can be written. */
  ghost predicate ReplacementsAccepted(start: map<Name, Data>, tasks: seq<Task>, results: seq<TaskResult>, written: seq<bool>) {
    && |results| == |tasks| == |written|
    && forall i :: 0 <= i < |tasks| && tasks[i].StoreData? && written[i] ==>
         var was := Latest(start, tasks[..i], results[..i], tasks[i].key);
         was.Some? && |tasks[i].data| <= |was.value| ==> results[i] == Stored
  }

  lemma OneMoreAccepted(start: map<Name, Data>, files: map<Name, Data>, usage: nat, quota: nat, tasks: seq<Task>,
                        results: seq<TaskResult>, written: seq<bool>, task: Task, result: TaskResult, w: bool)
    requires ReadsBack(start, files, tasks, results) && ReplacementsAccepted(start, tasks, results, written)
    requires Total(files) <= usage <= quota
    requires task.StoreData? && w && Minus(usage, SizeOf(files, task.key)) + |task.data| <= quota ==> result == Stored
    ensures ReplacementsAccepted(start, tasks + [task], results + [result], written + [w])
  {
    var ts, rs, ws := tasks + [task], results + [result], written + [w];
    forall i | 0 <= i < |ts| && ts[i].StoreData? && ws[i]
      ensures var was := Latest(start, ts[..i], rs[..i], ts[i].key);
              was.Some? && |ts[i].data| <= |was.value| ==> rs[i] == Stored
    {
      assert ts[..i] == tasks[..i] && rs[..i] == results[..i];
      if i == |tasks| {
        assert tasks[..i] == tasks && results[..i] == results;
        assert Lookup(files, task.key) == Latest(start, tasks, results, task.key);
        SizeWithinTotal(files, task.key);
      }
      hide Latest;
    }
  }

  lemma OneMoreTask(start: map<Name, Data>, files: map<Name, Data>, tasks: seq<Task>, results: seq<TaskResult>,
                    task: Task, result: TaskResult, files': map<Name, Data>)
    requires ReadsBack(start, files, tasks, results) && Executed(files, task, result, files')
    ensures ReadsBack(start, files', tasks + [task], results + [result])
  {
    var ts, rs, n := tasks + [task], results + [result], |tasks|;
    assert ts[..n] == tasks && rs[..n] == results;
    forall key ensures Lookup(files', key) == Latest(start, ts, rs, key) {
      assert Lookup(files, key) == Latest(start, tasks, results, key);
    }
    forall i | 0 <= i < |ts| && ts[i].RetrieveData?
      ensures AnswersWith(rs[i], Latest(start, ts[..i], rs[..i], ts[i].key))
    {
      hide Latest, AnswersWith;
      assert ts[..i] == tasks[..i] && rs[..i] == results[..i];
    }
  }

  /** Any sequence of data tasks: each retrieval answers with the bytes of the last store under
      its key that the node acknowledged, whatever was refused, failed or stored elsewhere in
      between, and the quota is kept throughout. Replacing a file by one that is not longer is never
      refused. */
  method ExecuteAll(store: DiskStore, tasks: seq<Task>, written: seq<bool>) returns (results: seq<TaskResult>)
    requires |written| == |tasks| && forall i :: 0 <= i < |tasks| ==> IsDataTask(tasks[i])
    modifies store
    ensures ReadsBack(old(store.files), store.files, tasks, results)
    ensures forall i :: 0 <= i < |tasks| && tasks[i].RetrieveData? ==>
              results[i] == match Latest(old(store.files), tasks[..i], results[..i], tasks[i].key)
                            case Some(data) => Bytes(data)
                            case None => Error("Key not found")
    ensures old(store.Covered()) && old(store.usage) <= store.quota ==> Total(store.files) <= store.usage <= store.quota
    ensures old(store.Covered()) && old(store.usage) <= store.quota ==>
              ReplacementsAccepted(old(store.files), tasks, results, written)
  {
    results := [];
    ghost var start := store.files;
    for k := 0 to |tasks|
      invariant ReadsBack(start, store.files, tasks[..k], results)
      invariant old(store.Covered()) && old(store.usage) <= store.quota ==>
                  ReplacementsAccepted(start, tasks[..k], results, written[..k])
      invariant old(store.Covered()) && old(store.usage) <= store.quota ==> store.Covered() && store.usage <= store.quota
    {
      hide ReadsBack, Executed, ReplacementsAccepted;
      ghost var files, usage := store.files, store.usage;
      var result := ExecuteData(store, tasks[k], written[k]);
      OneMoreTask(start, files, tasks[..k], results, tasks[k], result, store.files);
      if old(store.Covered()) && old(store.usage) <= store.quota {
        OneMoreAccepted(start, files, usage, store.quota, tasks[..k], results, written[..k], tasks[k], result, written[k]);
      }
      assert tasks[..k + 1] == tasks[..k] + [tasks[k]] && written[..k + 1] == written[..k] + [written[k]];
      results := results + [result];
    }
    assert tasks[..|tasks|] == tasks && written[..|tasks|] == written;
  }

  lemma SizeWithinTotal(files: map<Name, Data>, f: Name)
    ensures SizeOf(files, f) <= Total(files)
  {
    if f in files {
      SumWithout(Sizes(files), f);
    }
  }
}
