/** Reading a node's binding table page by page and deciding which queued tasks run
    (`handleMgmtBindRspIndication` in bindings.cpp; Mgmt_Bind_rsp is 053474r20, section 2.4.4.3.4). */
module BindingTable {
  import opened Basics
  import opened LittleEndian
  import opened Bindings

  datatype Action = ActionBind | ActionUnbind
  datatype TaskState = StateIdle | StateInProgress | StateCheck | StateFinished

  datatype Task = Task(action: Action, state: TaskState, binding: Binding)

  const ZDP_SUCCESS: u8 := 0

  // ----- One entry of the table -----

  /** Index of the first task for the binding, or the length of the queue. */
  function FindTask(tasks: seq<Task>, b: Binding): (i: nat)
    ensures i <= |tasks|
    ensures i < |tasks| ==> tasks[i].binding == b
    ensures forall k :: 0 <= k < i ==> tasks[k].binding != b
  {
    if tasks == [] || tasks[0].binding == b then 0 else 1 + FindTask(tasks[1..], b)
  }

  /** What finding its binding in the table does to a task. */
  function Found(t: Task): Task
  {
    if t.action.ActionBind? && !t.state.StateFinished? then t.(state := StateFinished)
    else if t.action.ActionUnbind? && t.state.StateCheck? then t.(state := StateIdle)
    else t
  }

  /** Only the first task for the binding is looked at. */
  function FoundEntry(tasks: seq<Task>, b: Binding): (r: seq<Task>)
    ensures |r| == |tasks|
  {
    var i := FindTask(tasks, b);
    if i < |tasks| then tasks[i := Found(tasks[i])] else tasks
  }

  /** The entry loop: stops when the count or the data run out, or at an invalid entry. */
  function Entries(data: seq<u8>, pos: nat, count: nat, tasks: seq<Task>): (r: seq<Task>)
    requires pos <= |data|
    ensures |r| == |tasks|
    decreases count
  {
    if count == 0 || pos == |data| then tasks
    else
      var p := ReadBinding(data, pos);
      if p.ok then Entries(data, p.pos, count - 1, FoundEntry(tasks, p.binding)) else tasks
  }

  /** After the last page: decide a task of the node that is still being checked. */
  function Decide(t: Task, srcAddress: nat): Task
  {
    if t.state.StateCheck? && t.binding.srcAddress == srcAddress then
      t.(state := if t.action.ActionBind? then StateIdle else StateFinished)
    else t
  }

  function DecideAll(tasks: seq<Task>, srcAddress: nat): (r: seq<Task>)
    ensures |r| == |tasks|
    ensures forall k :: 0 <= k < |r| ==> r[k] == Decide(tasks[k], srcAddress)
  {
    seq(|tasks|, k requires 0 <= k < |tasks| => Decide(tasks[k], srcAddress))
  }

  // ----- One page -----

  /** The response of a known node with address `srcAddress`. */
  function Page(tasks: seq<Task>, asdu: seq<u8>, srcAddress: nat): (r: seq<Task>)
    ensures |r| == |tasks|
  {
    if |asdu| < 2 || asdu[1] != ZDP_SUCCESS then tasks else
    var (entries, p1) := Read(asdu, 2, 1);
    var (startIndex, p2) := Read(asdu, p1, 1);
    var (listCount, p3) := Read(asdu, p2, 1);
    var after := Entries(asdu, p3, listCount, tasks);
    if entries > startIndex + listCount then after else DecideAll(after, srcAddress)
  }

  // ----- Well-formed pages -----

  /** A page as a node sends it: the table size, the index of its first entry and the entries. */
  datatype PageOf = PageOf(sequenceNumber: u8, size: u8, startIndex: u8, entries: seq<Binding>)

  predicate Last(p: PageOf) { p.size <= p.startIndex + |p.entries| }

  ghost predicate Writable(bs: seq<Binding>)
  {
    forall b :: b in bs ==> WriteBinding(b).0 && NormalForm(b)
  }

  function EntryBytes(bs: seq<Binding>): seq<u8>
  {
    if bs == [] then [] else WriteBinding(bs[0]).1 + EntryBytes(bs[1..])
  }

  function PageBytes(p: PageOf): seq<u8>
    requires |p.entries| < 256
  {
    [p.sequenceNumber, ZDP_SUCCESS, p.size, p.startIndex, |p.entries|] + EntryBytes(p.entries)
  }

  function FoundEntries(tasks: seq<Task>, bs: seq<Binding>): (r: seq<Task>)
    ensures |r| == |tasks|
    decreases |bs|
  {
    if bs == [] then tasks else FoundEntries(FoundEntry(tasks, bs[0]), bs[1..])
  }

  lemma WrittenNotEmpty(b: Binding)
    requires WriteBinding(b).0
    ensures |WriteBinding(b).1| > 0
  {
  }

  /** Decoding the entries of a page gives back exactly the entries. */
  lemma {:induction false} EntriesDecode(pre: seq<u8>, bs: seq<Binding>, tasks: seq<Task>)
    requires Writable(bs)
    ensures Entries(pre + EntryBytes(bs), |pre|, |bs|, tasks) == FoundEntries(tasks, bs)
    decreases |bs|
  {
    hide ReadBinding, WriteBinding;
    if bs != [] {
      var first, rest := WriteBinding(bs[0]).1, EntryBytes(bs[1..]);
      WrittenNotEmpty(bs[0]);
      RoundTrip(bs[0], pre, rest);
      assert pre + EntryBytes(bs) == pre + first + rest;
      assert (pre + first) + rest == pre + EntryBytes(bs);
      EntriesDecode(pre + first, bs[1..], FoundEntry(tasks, bs[0]));
    }
  }

  lemma PageDecodes(tasks: seq<Task>, p: PageOf, srcAddress: nat)
    requires Writable(p.entries) && |p.entries| < 256
    ensures Page(tasks, PageBytes(p), srcAddress) ==
            if Last(p) then DecideAll(FoundEntries(tasks, p.entries), srcAddress) else FoundEntries(tasks, p.entries)
  {
    var data := PageBytes(p);
    var pre: seq<u8> := [p.sequenceNumber, ZDP_SUCCESS, p.size, p.startIndex, |p.entries|];
    OneByte(data, 2);
    OneByte(data, 3);
    OneByte(data, 4);
    EntriesDecode(pre, p.entries, tasks);
  }

  lemma OneByte(data: seq<u8>, pos: nat)
    requires pos < |data|
    ensures Read(data, pos, 1) == (data[pos] as nat, pos + 1)
  {
    var s := data[pos..pos + 1];
    assert s == [data[pos]] && s[1..] == [];
    assert Value(s) == data[pos];
  }

  // ----- A whole table -----

  function Pages(tasks: seq<Task>, pages: seq<seq<u8>>, srcAddress: nat): (r: seq<Task>)
    ensures |r| == |tasks|
    decreases |pages|
  {
    if pages == [] then tasks else Pages(Page(tasks, pages[0], srcAddress), pages[1..], srcAddress)
  }

  function AllBytes(pages: seq<PageOf>): seq<seq<u8>>
    requires forall p :: p in pages ==> |p.entries| < 256
  {
    if pages == [] then [] else [PageBytes(pages[0])] + AllBytes(pages[1..])
  }

  function AllEntries(pages: seq<PageOf>): seq<Binding>
  {
    if pages == [] then [] else pages[0].entries + AllEntries(pages[1..])
  }

  /** Pages that together cover a table: only the last one reaches its end. */
  ghost predicate Covers(pages: seq<PageOf>)
  {
    && pages != []
    && (forall p :: p in pages ==> |p.entries| < 256 && Writable(p.entries))
    && (forall k :: 0 <= k < |pages| ==> (Last(pages[k]) <==> k == |pages| - 1))
  }

  lemma {:induction false} FoundEntriesAppend(tasks: seq<Task>, a: seq<Binding>, b: seq<Binding>)
    ensures FoundEntries(tasks, a + b) == FoundEntries(FoundEntries(tasks, a), b)
    decreases |a|
  {
    if a == [] {
      assert a + b == b;
    } else {
      assert (a + b)[1..] == a[1..] + b;
      FoundEntriesAppend(FoundEntry(tasks, a[0]), a[1..], b);
    }
  }

  /** The outcome depends on the entries only, not on how they are cut into pages. */
  lemma {:induction false} PageBoundariesDoNotMatter(tasks: seq<Task>, pages: seq<PageOf>, srcAddress: nat)
    requires Covers(pages)
    ensures Pages(tasks, AllBytes(pages), srcAddress) == DecideAll(FoundEntries(tasks, AllEntries(pages)), srcAddress)
    decreases |pages|
  {
    var p, rest := pages[0], pages[1..];
    PageDecodes(tasks, p, srcAddress);
    FoundEntriesAppend(tasks, p.entries, AllEntries(rest));
    var bytes := AllBytes(pages);
    assert bytes[0] == PageBytes(p) && bytes[1..] == AllBytes(rest);
    if |pages| == 1 {
      assert rest == [] && AllEntries(rest) == [] && p.entries + AllEntries(rest) == p.entries;
    } else {
      assert forall k :: 0 <= k < |rest| ==> rest[k] == pages[k + 1];
      PageBoundariesDoNotMatter(FoundEntries(tasks, p.entries), rest, srcAddress);
    }
  }

  /** No earlier task is queued for the same binding. */
  predicate First(tasks: seq<Task>, j: nat)
    requires j < |tasks|
  {
    FindTask(tasks, tasks[j].binding) == j
  }

  /** What the entries of the table do to one task of the queue. */
  lemma {:induction false} FoundEntriesAt(tasks: seq<Task>, bs: seq<Binding>, j: nat)
    requires j < |tasks|
    ensures FoundEntries(tasks, bs)[j] == if First(tasks, j) &&
        tasks[j].binding in bs then Found(tasks[j]) else tasks[j]
    decreases |bs|
  {
    if bs != [] {
      var next := FoundEntry(tasks, bs[0]);
      SameBindings(tasks, next, j);
      FoundEntriesAt(next, bs[1..], j);
    }
  }

  lemma SameBindings(tasks: seq<Task>, next: seq<Task>, j: nat)
    requires |next| == |tasks| && j < |tasks|
    requires forall k :: 0 <= k < |tasks| ==> next[k].binding == tasks[k].binding
    ensures First(next, j) == First(tasks, j)
  {
  }

  /** What table membership dictates for a task that is being checked. */
  function Verdict(action: Action, inTable: bool): TaskState
  {
    if action.ActionBind? == inTable then StateFinished else StateIdle
  }

  /** Main result: after any pages that cover the node's table, a task of the node that was in StateCheck
      ends as membership in the table dictates, whatever the page boundaries and repeated entries are --
      exactly unless the table holds its binding and an earlier task is queued for the same binding (the
      queue tells bind and unbind tasks apart, so both may be queued). */
  lemma Reconciled(tasks: seq<Task>, pages: seq<PageOf>, srcAddress: nat, j: nat)
    requires Covers(pages)
    requires j < |tasks| && tasks[j].state.StateCheck? && tasks[j].binding.srcAddress == srcAddress
    ensures var r := Pages(tasks, AllBytes(pages), srcAddress);
            var inTable := tasks[j].binding in AllEntries(pages);
      && r[j].action == tasks[j].action && r[j].binding == tasks[j].binding
      && (r[j].state == Verdict(tasks[j].action, inTable) <==> First(tasks, j) || !inTable)
  {
    PageBoundariesDoNotMatter(tasks, pages, srcAddress);
    FoundEntriesAt(tasks, AllEntries(pages), j);
  }

  /** A task that was not being checked changes in one way only: a bind task whose binding is found is done. */
  lemma UncheckedTask(tasks: seq<Task>, pages: seq<PageOf>, srcAddress: nat, j: nat)
    requires Covers(pages) && j < |tasks| && !tasks[j].state.StateCheck?
    ensures Pages(tasks, AllBytes(pages), srcAddress)[j] ==
      if tasks[j].action.ActionBind? && First(tasks, j) && tasks[j].binding in AllEntries(pages)
      then tasks[j].(state := StateFinished) else tasks[j]
  {
    PageBoundariesDoNotMatter(tasks, pages, srcAddress);
    FoundEntriesAt(tasks, AllEntries(pages), j);
  }

  /** A page with an error status decides nothing. */
  lemma RefusedPage(tasks: seq<Task>, asdu: seq<u8>, srcAddress: nat)
    requires |asdu| >= 2 ==> asdu[1] != 0
    ensures Page(tasks, asdu, srcAddress) == tasks
  {
  }

  /** The wrongly decided pair: a bind task and an unbind task for one binding that is in the table.  The
      unbind task ends as finished although the binding is still there. */
  lemma SecondTaskIsDecidedWrongly(b: Binding, sequenceNumber: u8)
    requires Writable([b])
    ensures var tasks := [Task(ActionBind, StateCheck, b), Task(ActionUnbind, StateCheck, b)];
            var pages := [PageOf(sequenceNumber, 1, 0, [b])];
            var r := Pages(tasks, AllBytes(pages), b.srcAddress);
      && Covers(pages) && b in AllEntries(pages)
      && r[0].state.StateFinished? && r[1].state.StateFinished? && Verdict(ActionUnbind, true).StateIdle?
  {
    var tasks := [Task(ActionBind, StateCheck, b), Task(ActionUnbind, StateCheck, b)];
    var pages := [PageOf(sequenceNumber, 1, 0, [b])];
    assert pages[0].entries == [b] && Last(pages[0]);
    assert AllEntries(pages) == [b] + AllEntries(pages[1..]);
    PageBoundariesDoNotMatter(tasks, pages, b.srcAddress);
    FoundEntriesAt(tasks, AllEntries(pages), 0);
    FoundEntriesAt(tasks, AllEntries(pages), 1);
  }

  /** Tasks of other nodes that the table does not mention are left alone. */
  lemma OthersUntouched(tasks: seq<Task>, pages: seq<PageOf>, srcAddress: nat, j: nat)
    requires Covers(pages)
    requires j < |tasks| && tasks[j].binding.srcAddress != srcAddress && tasks[j].binding !in AllEntries(pages)
    ensures Pages(tasks, AllBytes(pages), srcAddress)[j] == tasks[j]
  {
    PageBoundariesDoNotMatter(tasks, pages, srcAddress);
    FoundEntriesAt(tasks, AllEntries(pages), j);
  }

  // ----- The members of DeRestPluginPrivate -----

  class BindingManager {
    var bindingQueue: seq<Task>

    constructor (tasks: seq<Task>)
      ensures bindingQueue == tasks
    {
      bindingQueue := tasks;
    }

    /** The search through the queue for one entry. */
    method HandleEntry(b: Binding)
      modifies this
      ensures bindingQueue == FoundEntry(old(bindingQueue), b)
    {
      var i := 0;
      while i < |bindingQueue|
        invariant i <= |bindingQueue| && bindingQueue == old(bindingQueue)
        invariant forall k :: 0 <= k < i ==> bindingQueue[k].binding != b
      {
        var t := bindingQueue[i];
        if t.binding == b {
          if t.action == ActionBind && t.state != StateFinished {
            bindingQueue := bindingQueue[i := t.(state := StateFinished)];
          } else if t.action == ActionUnbind && t.state == StateCheck {
            bindingQueue := bindingQueue[i := t.(state := StateIdle)];
          }
          break;
        }
        i := i + 1;
      }
    }

    /** The end of the table: decide the tasks still being checked. */
    method CheckRemaining(srcAddress: nat)
      modifies this
      ensures bindingQueue == DecideAll(old(bindingQueue), srcAddress)
    {
      var i := 0;
      while i < |bindingQueue|
        invariant i <= |bindingQueue| == |old(bindingQueue)|
        invariant forall k :: 0 <= k < i ==> bindingQueue[k] == Decide(old(bindingQueue)[k], srcAddress)
        invariant forall k :: i <= k < |bindingQueue| ==> bindingQueue[k] == old(bindingQueue)[k]
      {
        var t := bindingQueue[i];
        if t.state == StateCheck && t.binding.srcAddress == srcAddress {
          if t.action == ActionBind {
            bindingQueue := bindingQueue[i := t.(state := StateIdle)];
          } else {
            bindingQueue := bindingQueue[i := t.(state := StateFinished)];
          }
        }
        i := i + 1;
      }
    }

    /** The loop over the entries of a page. */
    method HandleEntries(stream: DataStream, count: nat)
      requires stream.Valid()
      modifies this, stream
      ensures stream.Valid() && bindingQueue == Entries(stream.data, old(stream.pos), count, old(bindingQueue))
    {
      hide ReadBinding;
      var listCount := count;
      ghost var whole := Entries(stream.data, stream.pos, listCount, bindingQueue);
      while listCount > 0 && !stream.AtEnd()
        invariant stream.Valid()
        invariant Entries(stream.data, stream.pos, listCount, bindingQueue) == whole
        decreases listCount
      {
        var ok, b := stream.GetBinding();
        if !ok {
          break;
        }
        HandleEntry(b);
        listCount := listCount - 1;
      }
    }

    /** handleMgmtBindRspIndication for a node that is known. */
    method HandleMgmtBindRsp(asdu: seq<u8>, srcAddress: nat)
      modifies this
      ensures bindingQueue == Page(old(bindingQueue), asdu, srcAddress)
    {
      if |asdu| < 2 || asdu[1] != ZDP_SUCCESS {
        return;
      }
      var stream := new DataStream(asdu);
      stream.pos := 2;
      var entries := stream.Get(1);
      var startIndex := stream.Get(1);
      var listCount := stream.Get(1);
      HandleEntries(stream, listCount);
      if !(entries > startIndex + listCount) {
        CheckRemaining(srcAddress);
      }
    }
  }
}
