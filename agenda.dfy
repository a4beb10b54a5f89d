/** The agenda's in-memory store: the array of client records (each owning
    its task list) and the code of the client currently selected in the UI.
    Records carry the fields the browser store keeps under the keys
    `data-inicio`, `codigo`, `nome-cliente`, `nome-contato`, `email`,
    `telefone-01`, `plano-acao` and `tarefas`; a task those under `criacao`,
    `limite`, `titulo`, `descricao` and `status`. */
module Agenda {
  import opened Seqs

  datatype Option<T> = None | Some(value: T)

  /** A task. Its position in its client's list is its only identity. */
  datatype Task = Task(created: string, due: string, title: string, description: string, status: string)

  /** The seven fields of the client form. */
  datatype ClientForm = ClientForm(
    startDate: string, code: string, clientName: string, contactName: string,
    email: string, phone: string, actionPlan: string)

  /** A client record: the form fields plus the client's own tasks. */
  datatype Client = Client(
    startDate: string, code: string, clientName: string, contactName: string,
    email: string, phone: string, actionPlan: string, tasks: seq<Task>)

  /** The record a new client starts as: the form's fields and no tasks. */
  function NewClient(f: ClientForm): Client
  {
    Client(f.startDate, f.code, f.clientName, f.contactName, f.email, f.phone, f.actionPlan, [])
  }

  /** `{ ...c, ...f }`: the form's fields over the record; the tasks stay. */
  function Merge(c: Client, f: ClientForm): Client
  {
    c.(startDate := f.startDate, code := f.code, clientName := f.clientName,
       contactName := f.contactName, email := f.email, phone := f.phone,
       actionPlan := f.actionPlan)
  }

  /** JavaScript truthiness of the selected code: `null` and `''` both mean
      that no client is selected. */
  predicate IsSet(selection: Option<string>)
  {
    selection.Some? && selection.value != ""
  }

  /** `clients.some(c => c.codigo === code)` */
  predicate HasCode(cs: seq<Client>, code: string)
  {
    exists i :: 0 <= i < |cs| && cs[i].code == code
  }

  /** No two clients share a code. */
  predicate UniqueCodes(cs: seq<Client>)
  {
    forall i, j :: 0 <= i < j < |cs| ==> cs[i].code != cs[j].code
  }

  /** `clients.findIndex(c => c.codigo === code)`: the first client with the
      code, or -1 when there is none. `clients.find` returns the record at
      this index. */
  function FindIndex(cs: seq<Client>, code: string): (r: int)
    ensures -1 <= r < |cs|
    ensures r == -1 <==> !HasCode(cs, code)
    ensures r >= 0 ==> cs[r].code == code && forall j :: 0 <= j < r ==> cs[j].code != code
  {
    if cs == [] then -1
    else if cs[0].code == code then 0
    else
      var k := FindIndex(cs[1..], code);
      assert forall j :: 0 < j < |cs| ==> cs[j] == cs[1..][j - 1];
      if k == -1 then -1 else k + 1
  }

  /** The edit branch of saving a client: the form is merged over the first
      client with the selected code; without one the array is left alone. */
  function UpdateClient(cs: seq<Client>, code: string, f: ClientForm): (r: seq<Client>)
    ensures |r| == |cs|
    ensures !HasCode(cs, code) ==> r == cs
    ensures forall j :: 0 <= j < |cs| ==> r[j].tasks == cs[j].tasks
    ensures HasCode(cs, code) ==> r[FindIndex(cs, code)] == Merge(cs[FindIndex(cs, code)], f)
    ensures forall j :: 0 <= j < |cs| && j != FindIndex(cs, code) ==> r[j] == cs[j]
  {
    var k := FindIndex(cs, code);
    if k == -1 then cs else cs[k := Merge(cs[k], f)]
  }

  function CodeDiffers(code: string): Client -> bool
  {
    (c: Client) => c.code != code
  }

  /** `clients.filter(c => c.codigo !== code)`: every client with the code is
      gone, with its tasks, and the others keep their order. */
  function RemoveClient(cs: seq<Client>, code: string): (r: seq<Client>)
    ensures !HasCode(r, code)
    ensures IsSubseq(r, cs)
    ensures forall c :: c in cs && c.code != code ==> c in r
    ensures forall c :: multiset(r)[c] == if c.code != code then multiset(cs)[c] else 0
  {
    FilterIsSubseq(CodeDiffers(code), cs);
    FilterMultiset(CodeDiffers(code), cs);
    var r := Filter(CodeDiffers(code), cs);
    assert forall i :: 0 <= i < |r| ==> r[i] in r;
    r
  }

  /** The client at index `k` with its task list replaced. */
  function WithTasks(cs: seq<Client>, k: int, ts: seq<Task>): seq<Client>
    requires 0 <= k < |cs|
  {
    cs[k := cs[k].(tasks := ts)]
  }

  /** `client.tarefas.push(t)` on the first client with the code. */
  function AppendTask(cs: seq<Client>, code: string, t: Task): (r: seq<Client>)
    requires HasCode(cs, code)
    ensures |r| == |cs|
    ensures forall j :: 0 <= j < |cs| ==> r[j].code == cs[j].code
    ensures var k := FindIndex(cs, code);
      |r[k].tasks| == |cs[k].tasks| + 1 && r[k].tasks[..|cs[k].tasks|] == cs[k].tasks
      && r[k].tasks[|cs[k].tasks|] == t && r[k].(tasks := cs[k].tasks) == cs[k]
    ensures forall j :: 0 <= j < |cs| && j != FindIndex(cs, code) ==> r[j] == cs[j]
  {
    var k := FindIndex(cs, code);
    WithTasks(cs, k, cs[k].tasks + [t])
  }

  /** `client.tarefas.splice(index, 1)` on the first client with the code. */
  function RemoveTask(cs: seq<Client>, code: string, index: int): (r: seq<Client>)
    requires HasCode(cs, code)
    ensures |r| == |cs|
    ensures forall j :: 0 <= j < |cs| ==> r[j].code == cs[j].code
    ensures forall j :: 0 <= j < |cs| && j != FindIndex(cs, code) ==> r[j] == cs[j]
    ensures var k := FindIndex(cs, code);
      r[k].tasks == SpliceOne(cs[k].tasks, index) && r[k].(tasks := cs[k].tasks) == cs[k]
  {
    var k := FindIndex(cs, code);
    WithTasks(cs, k, SpliceOne(cs[k].tasks, index))
  }

  /** Adding a client whose code is not yet taken keeps the codes unique. */
  lemma AddKeepsCodesUnique(cs: seq<Client>, f: ClientForm)
    requires UniqueCodes(cs) && !HasCode(cs, f.code)
    ensures UniqueCodes(cs + [NewClient(f)])
    ensures FindIndex(cs + [NewClient(f)], f.code) == |cs|
  {
    var r := cs + [NewClient(f)];
    assert forall j :: 0 <= j < |cs| ==> r[j] == cs[j];
    assert r[|cs|].code == f.code;
  }

  /** Filtering clients keeps the codes of those kept unique. */
  lemma {:induction false} FilterKeepsCodesUnique(p: Client -> bool, cs: seq<Client>)
    requires UniqueCodes(cs)
    ensures UniqueCodes(Filter(p, cs))
  {
    if cs != [] {
      var rest := cs[1..];
      assert forall i :: 0 <= i < |rest| ==> rest[i] == cs[i + 1];
      FilterKeepsCodesUnique(p, rest);
      var kept := Filter(p, rest);
      if p(cs[0]) {
        var r := [cs[0]] + kept;
        forall i, j | 0 <= i < j < |r|
          ensures r[i].code != r[j].code
        {
          assert r[j] == kept[j - 1] && kept[j - 1] in rest;
          if i == 0 {
            var m :| 0 <= m < |rest| && rest[m] == kept[j - 1];
          } else {
            assert r[i] == kept[i - 1];
          }
        }
      }
    }
  }

  lemma RemoveKeepsCodesUnique(cs: seq<Client>, code: string)
    requires UniqueCodes(cs)
    ensures UniqueCodes(RemoveClient(cs, code))
  {
    FilterKeepsCodesUnique(CodeDiffers(code), cs);
  }

  /** Editing keeps the codes unique when the new code is the old one or is
      free, and the selection then follows the record under its new code. */
  lemma UpdateKeepsCodesUnique(cs: seq<Client>, code: string, f: ClientForm)
    requires UniqueCodes(cs) && HasCode(cs, code)
    requires f.code == code || !HasCode(cs, f.code)
    ensures UniqueCodes(UpdateClient(cs, code, f))
    ensures FindIndex(UpdateClient(cs, code, f), f.code) == FindIndex(cs, code)
  {
    var k := FindIndex(cs, code);
    var r := UpdateClient(cs, code, f);
    assert r[k].code == f.code;
    assert forall j :: 0 <= j < |cs| && j != k ==> r[j] == cs[j];
  }

  /** Editing does not re-check uniqueness: renaming a client to another
      client's code leaves two clients with one code. */
  lemma UpdateMayDuplicateCode()
    ensures exists cs: seq<Client>, code: string, f: ClientForm ::
      UniqueCodes(cs) && HasCode(cs, code) && !UniqueCodes(UpdateClient(cs, code, f))
  {
    var a := NewClient(ClientForm("", "A", "", "", "", "", ""));
    var b := NewClient(ClientForm("", "B", "", "", "", "", ""));
    var f := ClientForm("", "B", "", "", "", "", "");
    var cs := [a, b];
    assert FindIndex(cs, "A") == 0;
    var r := UpdateClient(cs, "A", f);
    assert r[0].code == "B" && r[1].code == "B";
    assert UniqueCodes(cs) && HasCode(cs, "A") && !UniqueCodes(r);
  }

  /** Task operations leave every client's code, and so the lookup by code,
      as they were. */
  lemma SameCodesSameLookup(cs: seq<Client>, r: seq<Client>, code: string)
    requires |r| == |cs| && forall j :: 0 <= j < |cs| ==> r[j].code == cs[j].code
    ensures FindIndex(r, code) == FindIndex(cs, code)
    ensures UniqueCodes(cs) ==> UniqueCodes(r)
  {
    if HasCode(cs, code) {
      var k := FindIndex(cs, code);
      assert r[k].code == code;
    }
    if HasCode(r, code) {
      var k := FindIndex(r, code);
      assert cs[k].code == code;
    }
  }

  /** The edit protocol: taking task `i` out of the selected client's list
      and then saving the edited task `t` leaves the list as it was without
      task `i`, with `t` at the end, so its length is restored; every other
      client is untouched. */
  lemma EditThenSaveMovesTaskLast(cs: seq<Client>, code: string, i: int, t: Task)
    requires HasCode(cs, code)
    requires 0 <= i < |cs[FindIndex(cs, code)].tasks|
    ensures var k := FindIndex(cs, code);
      var edited := RemoveTask(cs, code, i);
      HasCode(edited, code) && FindIndex(edited, code) == k &&
      var r := AppendTask(edited, code, t);
      |r| == |cs| && |r[k].tasks| == |cs[k].tasks|
      && r[k].tasks == cs[k].tasks[..i] + cs[k].tasks[i + 1..] + [t]
      && (forall j :: 0 <= j < |cs| && j != k ==> r[j] == cs[j])
  {
    var k := FindIndex(cs, code);
    var edited := RemoveTask(cs, code, i);
    SameCodesSameLookup(cs, edited, code);
    var before := cs[k].tasks;
    var removed := edited[k].tasks;
    assert removed == SpliceOne(before, i);
    assert removed == before[..i] + before[i + 1..] by {
      assert |removed| == |before| - 1;
      forall j | 0 <= j < |removed|
        ensures removed[j] == (before[..i] + before[i + 1..])[j]
      {
        if j < i {
          assert removed[..i][j] == before[..i][j];
        }
      }
    }
    var r := AppendTask(edited, code, t);
    assert r[k].tasks == removed + [t] by {
      assert r[k].tasks[..|removed|] == removed;
    }
  }

  /** Saving the staged task back unchanged only moves it to the end: the
      client's tasks are the same multiset as before. */
  lemma EditThenSaveUnchangedKeepsTasks(cs: seq<Client>, code: string, i: int)
    requires HasCode(cs, code)
    requires 0 <= i < |cs[FindIndex(cs, code)].tasks|
    ensures var k := FindIndex(cs, code);
      var edited := RemoveTask(cs, code, i);
      HasCode(edited, code) &&
      multiset(AppendTask(edited, code, cs[k].tasks[i])[k].tasks) == multiset(cs[k].tasks)
  {
    var k := FindIndex(cs, code);
    var edited := RemoveTask(cs, code, i);
    SameCodesSameLookup(cs, edited, code);
    assert edited[k].tasks == SpliceOne(cs[k].tasks, i);
  }

  /** The store: the global `clients` array and `currentClientCode`. */
  class Store {
    var clients: seq<Client>
    var current: Option<string>

    /** Start-up: the array loaded from the browser store, nothing selected. */
    constructor (loaded: seq<Client>)
      ensures clients == loaded && current == None
    {
      clients := loaded;
      current := None;
    }

    /** The client the task operations act on: the first one with the
        selected code. */
    function Selected(): int
      reads this
      ensures -1 <= Selected() < |clients|
    {
      if current.Some? then FindIndex(clients, current.value) else -1
    }

    /** `saveOrUpdateClient`: an invalid form is refused; with a client
        selected the form is merged over it; otherwise the form becomes a new
        client unless its code is taken. A save selects the form's code. */
    method SaveOrUpdateClient(formValid: bool, form: ClientForm) returns (saved: bool)
      modifies this
      ensures saved <==> formValid && (IsSet(old(current)) || !HasCode(old(clients), form.code))
      ensures !saved ==> clients == old(clients) && current == old(current)
      ensures saved ==> current == Some(form.code)
      ensures saved && IsSet(old(current)) ==> clients == UpdateClient(old(clients), old(current).value, form)
      ensures saved && !IsSet(old(current)) ==> clients == old(clients) + [NewClient(form)]
      ensures saved && !IsSet(old(current)) && UniqueCodes(old(clients)) ==>
        UniqueCodes(clients) && Selected() == |old(clients)|
      ensures (saved && IsSet(old(current)) && UniqueCodes(old(clients)) && HasCode(old(clients), old(current).value)
               && (form.code == old(current).value || !HasCode(old(clients), form.code))) ==>
        UniqueCodes(clients) && Selected() == old(Selected())
    {
      if !formValid {
        return false;
      }
      if IsSet(current) {
        var idx := FindIndex(clients, current.value);
        if idx != -1 {
          if UniqueCodes(clients) && (form.code == current.value || !HasCode(clients, form.code)) {
            UpdateKeepsCodesUnique(clients, current.value, form);
          }
          clients := clients[idx := Merge(clients[idx], form)];
        }
      } else {
        if HasCode(clients, form.code) {
          return false;
        }
        if UniqueCodes(clients) {
          AddKeepsCodesUnique(clients, form);
        }
        clients := clients + [NewClient(form)];
      }
      current := Some(form.code);
      saved := true;
    }

    /** `deleteCurrentClient`: after confirmation every client with the
        selected code is removed with its tasks; the selection is kept. */
    method DeleteCurrentClient(confirmed: bool)
      modifies this
      ensures current == old(current)
      ensures clients == if IsSet(old(current)) && confirmed then RemoveClient(old(clients), old(current).value)
                         else old(clients)
      ensures IsSet(old(current)) && confirmed ==> Selected() == -1
      ensures UniqueCodes(old(clients)) ==> UniqueCodes(clients)
    {
      if !IsSet(current) {
        return;
      }
      if confirmed {
        if UniqueCodes(clients) {
          RemoveKeepsCodesUnique(clients, current.value);
        }
        clients := RemoveClient(clients, current.value);
      }
    }

    /** `editTarefa(index)`: hands the task's fields to the task form and
        takes the task out of the selected client's list at once. */
    method EditTask(index: int) returns (staged: Task)
      requires Selected() != -1 && 0 <= index < |clients[Selected()].tasks|
      modifies this
      ensures staged == old(clients[Selected()].tasks[index])
      ensures clients == RemoveTask(old(clients), old(current).value, index)
      ensures current == old(current) && Selected() == old(Selected())
    {
      var k := Selected();
      staged := clients[k].tasks[index];
      clients := WithTasks(clients, k, SpliceOne(clients[k].tasks, index));
      SameCodesSameLookup(old(clients), clients, current.value);
    }

    /** `addTarefa`: a task without a title or due date is refused; any other
        is appended to the selected client's list. */
    method AddTask(form: Task) returns (added: bool)
      requires form.title != "" && form.due != "" ==> Selected() != -1
      modifies this
      ensures added <==> form.title != "" && form.due != ""
      ensures clients == if added then AppendTask(old(clients), old(current).value, form) else old(clients)
      ensures current == old(current) && Selected() == old(Selected())
    {
      if form.title == "" || form.due == "" {
        return false;
      }
      var k := Selected();
      clients := WithTasks(clients, k, clients[k].tasks + [form]);
      SameCodesSameLookup(old(clients), clients, current.value);
      added := true;
    }

    /** `deleteTarefa(index)`: after confirmation, `splice(index, 1)` on the
        selected client's list. */
    method DeleteTask(confirmed: bool, index: int)
      requires confirmed ==> Selected() != -1
      modifies this
      ensures clients == if confirmed then RemoveTask(old(clients), old(current).value, index) else old(clients)
      ensures current == old(current) && Selected() == old(Selected())
    {
      if confirmed {
        var k := Selected();
        clients := WithTasks(clients, k, SpliceOne(clients[k].tasks, index));
        SameCodesSameLookup(old(clients), clients, current.value);
      }
    }
  }
}
