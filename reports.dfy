/** The global task reports: every client's tasks flattened into one list of
    rows tagged with the client, the fixed filters (all, today, overdue,
    future), the search by client or by date, and the overdue badge. All of
    them read the store and change nothing. */
module Reports {
  import opened Seqs
  import opened Dates
  import opened Agenda

  /** The one status that exempts a task from being overdue. */
  const COMPLETED: string := "Concluída"

  /** A row of the fixed reports: the task's fields spread together with
      `clienteNome` and `clienteCodigo`. */
  datatype Entry = Entry(task: Task, clientName: string, clientCode: string)

  /** A row of the search by client or date, which carries `clienteNome` only. */
  datatype NamedTask = NamedTask(task: Task, clientName: string)

  /** `isAtrasada`: due before today and not completed. */
  predicate IsOverdue(t: Task, today: string)
  {
    StringLess(t.due, today) && t.status != COMPLETED
  }

  /** One client's tasks as report rows. */
  function Tagged(c: Client): seq<Entry>
  {
    seq(|c.tasks|, j requires 0 <= j < |c.tasks| => Entry(c.tasks[j], c.clientName, c.code))
  }

  /** `allTasks`: the rows of every client, clients in order and each
      client's tasks in order. */
  function Flatten(cs: seq<Client>): seq<Entry>
  {
    if cs == [] then [] else Tagged(cs[0]) + Flatten(cs[1..])
  }

  /** The number of tasks held by all clients together. */
  function TaskCount(cs: seq<Client>): nat
  {
    if cs == [] then 0 else |cs[0].tasks| + TaskCount(cs[1..])
  }

  /** Rows without the client code. */
  function Untag(es: seq<Entry>): seq<NamedTask>
  {
    seq(|es|, i requires 0 <= i < |es| => NamedTask(es[i].task, es[i].clientName))
  }

  function DueOnTest(date: string): Entry -> bool
  {
    (e: Entry) => e.task.due == date
  }

  function DueBeforeTest(today: string): Entry -> bool
  {
    (e: Entry) => StringLess(e.task.due, today)
  }

  function DueAfterTest(today: string): Entry -> bool
  {
    (e: Entry) => StringLess(today, e.task.due)
  }

  function OverdueTest(today: string): Entry -> bool
  {
    (e: Entry) => IsOverdue(e.task, today)
  }

  /** The fixed report `filterType` over the rows `all`: "report" is every
      row, "today" the rows due today, "overdue" the overdue rows, "future"
      the rows due after today; any other name shows nothing. */
  function FixedReport(all: seq<Entry>, filterType: string, today: string): seq<Entry>
  {
    if filterType == "report" then all
    else if filterType == "today" then Filter(DueOnTest(today), all)
    else if filterType == "overdue" then Filter(OverdueTest(today), all)
    else if filterType == "future" then Filter(DueAfterTest(today), all)
    else []
  }

  lemma {:induction false} FlattenConcat(a: seq<Client>, b: seq<Client>)
    ensures Flatten(a + b) == Flatten(a) + Flatten(b)
    ensures TaskCount(a + b) == TaskCount(a) + TaskCount(b)
  {
    if a == [] {
      assert a + b == b;
    } else {
      assert (a + b)[0] == a[0] && (a + b)[1..] == a[1..] + b;
      FlattenConcat(a[1..], b);
    }
  }

  /** The flattened list has one row per task of every client. */
  lemma {:induction false} FlattenLength(cs: seq<Client>)
    ensures |Flatten(cs)| == TaskCount(cs)
  {
    if cs != [] {
      FlattenLength(cs[1..]);
    }
  }

  /** Task `j` of client `i` sits after the tasks of the clients before `i`,
      tagged with client `i`'s name and code. */
  lemma FlattenAt(cs: seq<Client>, i: int, j: int)
    requires 0 <= i < |cs| && 0 <= j < |cs[i].tasks|
    ensures TaskCount(cs[..i]) + j < |Flatten(cs)|
    ensures Flatten(cs)[TaskCount(cs[..i]) + j] == Entry(cs[i].tasks[j], cs[i].clientName, cs[i].code)
  {
    assert cs == cs[..i] + cs[i..];
    FlattenConcat(cs[..i], cs[i..]);
    FlattenLength(cs[..i]);
    assert cs[i..] == [cs[i]] + cs[i + 1..];
    assert Flatten(cs[i..]) == Tagged(cs[i]) + Flatten(cs[i + 1..]);
  }

  /** A row is in the flattened list exactly when it is some task of some
      client, tagged with that client's name and code. */
  lemma {:induction false} FlattenMember(cs: seq<Client>, e: Entry)
    ensures e in Flatten(cs) <==>
      exists i, j :: 0 <= i < |cs| && 0 <= j < |cs[i].tasks| && e == Entry(cs[i].tasks[j], cs[i].clientName, cs[i].code)
  {
    if cs != [] {
      FlattenMember(cs[1..], e);
      if e in Flatten(cs[1..]) {
        var i, j :| 0 <= i < |cs[1..]| && 0 <= j < |cs[1..][i].tasks|
          && e == Entry(cs[1..][i].tasks[j], cs[1..][i].clientName, cs[1..][i].code);
        assert cs[i + 1] == cs[1..][i];
      }
      if exists i, j :: 0 <= i < |cs| && 0 <= j < |cs[i].tasks| && e == Entry(cs[i].tasks[j], cs[i].clientName, cs[i].code) {
        var i, j :| 0 <= i < |cs| && 0 <= j < |cs[i].tasks| && e == Entry(cs[i].tasks[j], cs[i].clientName, cs[i].code);
        if i == 0 {
          assert e == Tagged(cs[0])[j];
        } else {
          assert cs[1..][i - 1] == cs[i];
        }
      }
    }
  }

  /** Flattening after one client is replaced: the rows before and after that
      client's are as they were. */
  lemma FlattenReplace(cs: seq<Client>, k: int, c: Client)
    requires 0 <= k < |cs|
    ensures Flatten(cs) == Flatten(cs[..k]) + Tagged(cs[k]) + Flatten(cs[k + 1..])
    ensures Flatten(cs[k := c]) == Flatten(cs[..k]) + Tagged(c) + Flatten(cs[k + 1..])
  {
    var r := cs[k := c];
    assert cs == cs[..k] + ([cs[k]] + cs[k + 1..]);
    assert r == cs[..k] + ([c] + cs[k + 1..]);
    FlattenConcat(cs[..k], [cs[k]] + cs[k + 1..]);
    FlattenConcat(cs[..k], [c] + cs[k + 1..]);
    assert ([cs[k]] + cs[k + 1..])[1..] == cs[k + 1..];
    assert ([c] + cs[k + 1..])[1..] == cs[k + 1..];
  }

  /** Every fixed report is a subsequence of the flattened list: it keeps
      client order and task order and invents no row. */
  lemma FixedReportIsSubseq(all: seq<Entry>, filterType: string, today: string)
    ensures IsSubseq(FixedReport(all, filterType, today), all)
  {
    if filterType == "report" {
      SubseqRefl(all);
    } else if filterType == "today" {
      FilterIsSubseq(DueOnTest(today), all);
    } else if filterType == "overdue" {
      FilterIsSubseq(OverdueTest(today), all);
    } else if filterType == "future" {
      FilterIsSubseq(DueAfterTest(today), all);
    }
  }

  /** No row is both overdue and future, and a row due exactly today is
      neither. */
  lemma OverdueFutureDisjoint(all: seq<Entry>, today: string)
    ensures forall e :: e in FixedReport(all, "overdue", today) ==> e !in FixedReport(all, "future", today)
    ensures forall e :: e in FixedReport(all, "today", today) ==>
      e !in FixedReport(all, "overdue", today) && e !in FixedReport(all, "future", today)
  {
    forall e | e in FixedReport(all, "overdue", today)
      ensures e !in FixedReport(all, "future", today)
    {
      StringLessAsymmetric(e.task.due, today);
    }
    StringLessIrreflexive(today);
  }

  /** Every row is due today, before today or after today, and in one of
      these only: the three counts add up to the whole. */
  lemma DueDatePartition(all: seq<Entry>, today: string)
    ensures |Filter(DueOnTest(today), all)| + |Filter(DueBeforeTest(today), all)| + |Filter(DueAfterTest(today), all)| == |all|
    ensures forall e :: e in FixedReport(all, "overdue", today) ==> e in Filter(DueBeforeTest(today), all)
  {
    forall i | 0 <= i < |all|
      ensures DueOnTest(today)(all[i]) || DueBeforeTest(today)(all[i]) || DueAfterTest(today)(all[i])
      ensures !(DueOnTest(today)(all[i]) && DueBeforeTest(today)(all[i]))
      ensures !(DueOnTest(today)(all[i]) && DueAfterTest(today)(all[i]))
      ensures !(DueBeforeTest(today)(all[i]) && DueAfterTest(today)(all[i]))
    {
      StringLessTrichotomy(all[i].task.due, today);
      StringLessIrreflexive(today);
      StringLessAsymmetric(all[i].task.due, today);
    }
    FilterThreeWay(DueOnTest(today), DueBeforeTest(today), DueAfterTest(today), all);
  }

  /** The search by client shows the first client with the code; when codes
      are unique that is every row of the flattened list with that code. */
  lemma {:induction false} ClientSearchMatchesFlatten(cs: seq<Client>, code: string)
    requires UniqueCodes(cs)
    ensures Filter((e: Entry) => e.clientCode == code, Flatten(cs))
         == (if HasCode(cs, code) then Tagged(cs[FindIndex(cs, code)]) else [])
  {
    var p := (e: Entry) => e.clientCode == code;
    if cs != [] {
      assert UniqueCodes(cs[1..]);
      ClientSearchMatchesFlatten(cs[1..], code);
      FilterConcat(p, Tagged(cs[0]), Flatten(cs[1..]));
      if cs[0].code == code {
        FilterKeepsAll(p, Tagged(cs[0]));
        assert !HasCode(cs[1..], code);
      } else {
        FilterDropsAll(p, Tagged(cs[0]));
        if HasCode(cs, code) {
          var k := FindIndex(cs, code);
          assert cs[1..][k - 1] == cs[k];
          assert HasCode(cs[1..], code);
          assert FindIndex(cs[1..], code) == k - 1;
        } else {
          assert !HasCode(cs[1..], code);
        }
      }
    }
  }

  /** After a client is deleted no report row carries its code, so none of
      its tasks can be reached. */
  lemma DeletedClientLeavesReports(cs: seq<Client>, code: string, filterType: string, today: string)
    ensures forall e :: e in FixedReport(Flatten(RemoveClient(cs, code)), filterType, today) ==> e.clientCode != code
  {
    var rest := RemoveClient(cs, code);
    forall e | e in FixedReport(Flatten(rest), filterType, today)
      ensures e.clientCode != code
    {
      FixedReportIsSubseq(Flatten(rest), filterType, today);
      SubseqMember(FixedReport(Flatten(rest), filterType, today), Flatten(rest), e);
      FlattenMember(rest, e);
    }
  }

  /** A task appended to a client adds one row after its others. */
  lemma TaggedAppend(c: Client, t: Task)
    ensures Tagged(c.(tasks := c.tasks + [t])) == Tagged(c) + [Entry(t, c.clientName, c.code)]
  {
    var c' := c.(tasks := c.tasks + [t]);
    assert |Tagged(c')| == |Tagged(c)| + 1;
    forall j | 0 <= j < |Tagged(c')|
      ensures Tagged(c')[j] == (Tagged(c) + [Entry(t, c.clientName, c.code)])[j]
    {
    }
  }

  /** Appending a task to client `k` inserts one row after that client's
      other rows. */
  lemma FlattenAppendAt(cs: seq<Client>, k: int, t: Task)
    requires 0 <= k < |cs|
    ensures Flatten(WithTasks(cs, k, cs[k].tasks + [t]))
         == (Flatten(cs[..k]) + Tagged(cs[k])) + [Entry(t, cs[k].clientName, cs[k].code)] + Flatten(cs[k + 1..])
  {
    var c := cs[k].(tasks := cs[k].tasks + [t]);
    FlattenReplace(cs, k, c);
    TaggedAppend(cs[k], t);
  }

  /** Adding a task adds one row to the report, and one to the overdue count
      exactly when the new task is overdue. */
  lemma AppendTaskCounts(cs: seq<Client>, code: string, t: Task, today: string)
    requires HasCode(cs, code)
    ensures TaskCount(AppendTask(cs, code, t)) == TaskCount(cs) + 1
    ensures |Filter(OverdueTest(today), Flatten(AppendTask(cs, code, t)))|
         == |Filter(OverdueTest(today), Flatten(cs))| + (if IsOverdue(t, today) then 1 else 0)
  {
    var k := FindIndex(cs, code);
    var r := AppendTask(cs, code, t);
    assert r == WithTasks(cs, k, cs[k].tasks + [t]);
    var e := Entry(t, cs[k].clientName, cs[k].code);
    var front, after := Flatten(cs[..k]) + Tagged(cs[k]), Flatten(cs[k + 1..]);
    FlattenAppendAt(cs, k, t);
    FlattenReplace(cs, k, cs[k]);
    assert Flatten(cs) == front + after && Flatten(r) == front + [e] + after;
    FlattenLength(cs);
    FlattenLength(r);
    var p := OverdueTest(today);
    FilterLengthConcat(p, front, after);
    FilterLengthConcat(p, front + [e], after);
    FilterLengthConcat(p, front, [e]);
    assert |Filter(p, [e])| == if IsOverdue(t, today) then 1 else 0;
  }

  /** Removing a task at a valid index takes one row out of the report. */
  lemma RemoveTaskCount(cs: seq<Client>, code: string, index: int)
    requires HasCode(cs, code) && 0 <= index < |cs[FindIndex(cs, code)].tasks|
    ensures TaskCount(RemoveTask(cs, code, index)) == TaskCount(cs) - 1
  {
    var k := FindIndex(cs, code);
    var c := cs[k].(tasks := SpliceOne(cs[k].tasks, index));
    assert RemoveTask(cs, code, index) == cs[k := c];
    FlattenReplace(cs, k, c);
    FlattenLength(cs);
    FlattenLength(cs[k := c]);
  }

  /** One more row of client `c` after its first `j`. */
  lemma TaggedStep(done: seq<Entry>, c: Client, j: int)
    requires 0 <= j < |c.tasks|
    ensures done + Tagged(c)[..j + 1] == (done + Tagged(c)[..j]) + [Entry(c.tasks[j], c.clientName, c.code)]
  {
    assert Tagged(c)[..j + 1] == Tagged(c)[..j] + [Entry(c.tasks[j], c.clientName, c.code)];
  }

  /** The rows of the first `i + 1` clients are those of the first `i`
      followed by client `i`'s. */
  lemma FlattenStep(cs: seq<Client>, i: int)
    requires 0 <= i < |cs|
    ensures Flatten(cs[..i + 1]) == Flatten(cs[..i]) + Tagged(cs[i])[..|cs[i].tasks|]
  {
    assert Tagged(cs[i])[..|cs[i].tasks|] == Tagged(cs[i]) == Flatten([cs[i]]);
    assert cs[..i + 1] == cs[..i] + [cs[i]];
    FlattenConcat(cs[..i], [cs[i]]);
  }

  /** Dropping the client code from one more row. */
  lemma UntagStep(s: seq<Entry>, e: Entry)
    ensures Untag(s + [e]) == Untag(s) + [NamedTask(e.task, e.clientName)]
  {
  }

  /** The nested `forEach` of `showFixedGlobalTasks` that builds `allTasks`. */
  method CollectTasks(cs: seq<Client>) returns (all: seq<Entry>)
    ensures all == Flatten(cs)
  {
    all := [];
    var i := 0;
    while i < |cs|
      invariant 0 <= i <= |cs|
      invariant all == Flatten(cs[..i])
    {
      var c := cs[i];
      ghost var done := all;
      var j := 0;
      while j < |c.tasks|
        invariant 0 <= j <= |c.tasks|
        invariant all == done + Tagged(c)[..j]
      {
        TaggedStep(done, c, j);
        all := all + [Entry(c.tasks[j], c.clientName, c.code)];
        j := j + 1;
      }
      FlattenStep(cs, i);
      i := i + 1;
    }
    assert cs[..i] == cs;
  }

  /** `showFixedGlobalTasks(filterType)`: the fixed report over every
      client's tasks. */
  method ShowFixedGlobalTasks(cs: seq<Client>, filterType: string, today: string) returns (filtered: seq<Entry>)
    ensures filtered == FixedReport(Flatten(cs), filterType, today)
    ensures IsSubseq(filtered, Flatten(cs))
  {
    var all := CollectTasks(cs);
    filtered := FixedReport(all, filterType, today);
    FixedReportIsSubseq(all, filterType, today);
  }

  /** The date branch of `showGlobalTasks`: every client's tasks due on `date`. */
  method TasksDueOn(cs: seq<Client>, date: string) returns (shown: seq<NamedTask>)
    ensures shown == Untag(Filter(DueOnTest(date), Flatten(cs)))
    ensures shown == Untag(FixedReport(Flatten(cs), "today", date))
  {
    ghost var p := DueOnTest(date);
    ghost var seen: seq<Entry> := [];
    shown := [];
    var i := 0;
    while i < |cs|
      invariant 0 <= i <= |cs|
      invariant seen == Flatten(cs[..i])
      invariant shown == Untag(Filter(p, seen))
    {
      var c := cs[i];
      ghost var done := seen;
      var j := 0;
      while j < |c.tasks|
        invariant 0 <= j <= |c.tasks|
        invariant seen == done + Tagged(c)[..j]
        invariant shown == Untag(Filter(p, seen))
      {
        var e := Entry(c.tasks[j], c.clientName, c.code);
        TaggedStep(done, c, j);
        FilterStep(p, seen, e);
        UntagStep(Filter(p, seen), e);
        if c.tasks[j].due == date {
          shown := shown + [NamedTask(c.tasks[j], c.clientName)];
        }
        seen := seen + [e];
        j := j + 1;
      }
      FlattenStep(cs, i);
      i := i + 1;
    }
    assert cs[..i] == cs;
  }

  /** `showGlobalTasks(clientCode, dateStr)`: with a client code, the tasks of
      the first client with it (none when there is no such client); else with
      a date, every client's tasks due that day; else nothing. */
  method ShowGlobalTasks(cs: seq<Client>, clientCode: Option<string>, dateStr: Option<string>)
    returns (shown: seq<NamedTask>)
    ensures IsSet(clientCode) ==>
      shown == if HasCode(cs, clientCode.value) then Untag(Tagged(cs[FindIndex(cs, clientCode.value)])) else []
    ensures !IsSet(clientCode) && IsSet(dateStr) ==> shown == Untag(Filter(DueOnTest(dateStr.value), Flatten(cs)))
    ensures !IsSet(clientCode) && !IsSet(dateStr) ==> shown == []
    ensures IsSubseq(shown, Untag(Flatten(cs)))
  {
    shown := [];
    if IsSet(clientCode) {
      var k := FindIndex(cs, clientCode.value);
      if k != -1 {
        shown := Untag(Tagged(cs[k]));
        ClientRowsInFlatten(cs, k);
        UntagSubseq(Tagged(cs[k]), Flatten(cs));
      }
    } else if IsSet(dateStr) {
      shown := TasksDueOn(cs, dateStr.value);
      FilterIsSubseq(DueOnTest(dateStr.value), Flatten(cs));
      UntagSubseq(Filter(DueOnTest(dateStr.value), Flatten(cs)), Flatten(cs));
    }
  }

  /** Dropping the client code keeps a subsequence a subsequence. */
  lemma {:induction false} UntagSubseq(a: seq<Entry>, b: seq<Entry>)
    requires IsSubseq(a, b)
    ensures IsSubseq(Untag(a), Untag(b))
    decreases |b|
  {
    if a != [] {
      assert Untag(a)[1..] == Untag(a[1..]) && Untag(b)[1..] == Untag(b[1..]);
      if a[0] == b[0] && IsSubseq(a[1..], b[1..]) {
        UntagSubseq(a[1..], b[1..]);
      } else {
        UntagSubseq(a, b[1..]);
      }
    }
  }

  /** One client's rows form a contiguous run of the flattened list. */
  lemma ClientRowsInFlatten(cs: seq<Client>, k: int)
    requires 0 <= k < |cs|
    ensures IsSubseq(Tagged(cs[k]), Flatten(cs))
  {
    var before, rows, after := Flatten(cs[..k]), Tagged(cs[k]), Flatten(cs[k + 1..]);
    assert Flatten(cs) == before + (rows + after) by {
      FlattenReplace(cs, k, cs[k]);
    }
    assert IsSubseq(rows, rows + after) by {
      SubseqRefl(rows);
      SubseqAppend(rows, rows, after);
    }
    SubseqPrepend(rows, before, rows + after);
  }

  /** `updateOverdueAlert`: the number of overdue tasks over all clients,
      and whether the badge shows (only when there is at least one). */
  method OverdueAlert(cs: seq<Client>, today: string) returns (count: nat, visible: bool)
    ensures count == |FixedReport(Flatten(cs), "overdue", today)|
    ensures visible <==> count > 0
  {
    ghost var p := OverdueTest(today);
    ghost var seen: seq<Entry> := [];
    count := 0;
    var i := 0;
    while i < |cs|
      invariant 0 <= i <= |cs|
      invariant seen == Flatten(cs[..i])
      invariant count == |Filter(p, seen)|
    {
      var c := cs[i];
      ghost var done := seen;
      var j := 0;
      while j < |c.tasks|
        invariant 0 <= j <= |c.tasks|
        invariant seen == done + Tagged(c)[..j]
        invariant count == |Filter(p, seen)|
      {
        var e := Entry(c.tasks[j], c.clientName, c.code);
        TaggedStep(done, c, j);
        FilterStep(p, seen, e);
        if StringLess(c.tasks[j].due, today) && c.tasks[j].status != COMPLETED {
          count := count + 1;
        }
        seen := seen + [e];
        j := j + 1;
      }
      FlattenStep(cs, i);
      i := i + 1;
    }
    assert cs[..i] == cs;
    visible := count > 0;
  }

  /** A pending task due 2024-01-01 for client C1 ("Acme") is the one overdue
      row on 2024-06-01, tagged with code C1. */
  lemma OverdueScenario()
    ensures var f := ClientForm("", "C1", "Acme", "", "", "", "");
      var t := Task("", "2024-01-01", "Call", "", "Pendente");
      HasCode([NewClient(f)], "C1") &&
      var cs := AppendTask([NewClient(f)], "C1", t);
      FixedReport(Flatten(cs), "overdue", "2024-06-01") == [Entry(t, "Acme", "C1")]
  {
    var f := ClientForm("", "C1", "Acme", "", "", "", "");
    var t := Task("", "2024-01-01", "Call", "", "Pendente");
    var c := NewClient(f);
    assert [c][0].code == "C1";
    assert FindIndex([c], "C1") == 0;
    var cs := AppendTask([c], "C1", t);
    assert cs == [c.(tasks := [t])];
    assert Flatten(cs) == Tagged(cs[0]) + Flatten([]);
    assert Tagged(cs[0]) == [Entry(t, "Acme", "C1")];
    assert StringLess("2024-01-01", "2024-06-01") by {
      var a, b := "2024-01-01", "2024-06-01";
      assert a[..6] == "2024-0" == b[..6];
      assert a[6..] == "1-01" && b[6..] == "6-01";
      assert a == a[..6] + a[6..] && b == b[..6] + b[6..];
      StringLessSplit(a[..6], a[6..], b[..6], b[6..]);
    }
    assert "Pendente" != COMPLETED;
  }
}
