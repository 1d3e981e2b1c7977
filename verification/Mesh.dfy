/** The scheduler mesh as a value: worker queues, the mailbox matrix, the external
    mailboxes and the warehouse, each given by its contents.  The rings behind them are
    proved separately to hold exactly such sequences (LocalQueue, Mailbox, MpmcRing). */
module Mesh {
  import opened Arith
  import opened Limits

  type Task = nat

  datatype Chunk = Chunk(tasks: seq<Task>, hops: nat)

  /** The thread that calls into the scheduler: `CURRENT_WORKER_ID`, where a host thread
      carries usize::MAX. */
  datatype Caller = Worker(id: nat) | Host

  /** `mail[p][t]` is the mailbox that worker `p` fills and worker `t` empties. */
  datatype Mesh = Mesh(
    locals: seq<seq<Task>>,
    mail: seq<seq<seq<Chunk>>>,
    ext: seq<seq<Chunk>>,
    ware: seq<Chunk>)
  {
    function Workers(): nat { |locals| }

    predicate Shape() {
      && 0 < |locals|
      && |mail| == |locals|
      && |ext| == |locals|
      && forall p :: 0 <= p < |mail| ==> |mail[p]| == |locals|
    }
  }

  function MaxHops(n: nat): nat { Min(n / 2, HOPS_EXHAUSTED) }

  function Single(task: Task): Chunk { Chunk([task], 0) }

  function EmptyMesh(n: nat): (m: Mesh)
    requires 0 < n
    ensures m.Shape() && m.Workers() == n
  {
    Mesh(seq(n, _ => []), seq(n, _ => seq(n, _ => [])), seq(n, _ => []), [])
  }

  // ----- the tasks in the mesh -----

  function Bag(cs: seq<Chunk>): multiset<Task> {
    if cs == [] then multiset{} else multiset(cs[0].tasks) + Bag(cs[1..])
  }

  function RowBag(row: seq<seq<Chunk>>): multiset<Task> {
    if row == [] then multiset{} else Bag(row[0]) + RowBag(row[1..])
  }

  function MatrixBag(rows: seq<seq<seq<Chunk>>>): multiset<Task> {
    if rows == [] then multiset{} else RowBag(rows[0]) + MatrixBag(rows[1..])
  }

  function LocalBag(qs: seq<seq<Task>>): multiset<Task> {
    if qs == [] then multiset{} else multiset(qs[0]) + LocalBag(qs[1..])
  }

  /** Every task queued anywhere, with its multiplicity. */
  function Tasks(m: Mesh): multiset<Task> {
    LocalBag(m.locals) + MatrixBag(m.mail) + RowBag(m.ext) + Bag(m.ware)
  }

  lemma {:induction false} BagAppend(a: seq<Chunk>, b: seq<Chunk>)
    ensures Bag(a + b) == Bag(a) + Bag(b)
  {
    if a == [] {
      assert a + b == b;
    } else {
      assert (a + b)[1..] == a[1..] + b;
      BagAppend(a[1..], b);
    }
  }

  lemma BagSnoc(a: seq<Chunk>, c: Chunk)
    ensures Bag(a + [c]) == Bag(a) + multiset(c.tasks)
  {
    BagAppend(a, [c]);
    assert [c][1..] == [];
  }

  lemma {:induction false} RowBagUpdate(row: seq<seq<Chunk>>, k: nat, q: seq<Chunk>, x: Task)
    requires k < |row|
    ensures RowBag(row[k := q])[x] + Bag(row[k])[x] == RowBag(row)[x] + Bag(q)[x]
  {
    if k == 0 {
      assert row[k := q][1..] == row[1..];
    } else {
      assert row[k := q][1..] == row[1..][k - 1 := q];
      RowBagUpdate(row[1..], k - 1, q, x);
    }
  }

  lemma {:induction false} MatrixBagUpdate(rows: seq<seq<seq<Chunk>>>, k: nat, row: seq<seq<Chunk>>, x: Task)
    requires k < |rows|
    ensures MatrixBag(rows[k := row])[x] + RowBag(rows[k])[x] == MatrixBag(rows)[x] + RowBag(row)[x]
  {
    if k == 0 {
      assert rows[k := row][1..] == rows[1..];
    } else {
      assert rows[k := row][1..] == rows[1..][k - 1 := row];
      MatrixBagUpdate(rows[1..], k - 1, row, x);
    }
  }

  lemma {:induction false} LocalBagUpdate(qs: seq<seq<Task>>, k: nat, q: seq<Task>, x: Task)
    requires k < |qs|
    ensures LocalBag(qs[k := q])[x] + multiset(qs[k])[x] == LocalBag(qs)[x] + multiset(q)[x]
  {
    if k == 0 {
      assert qs[k := q][1..] == qs[1..];
    } else {
      assert qs[k := q][1..] == qs[1..][k - 1 := q];
      LocalBagUpdate(qs[1..], k - 1, q, x);
    }
  }

  lemma {:induction false} EmptyMeshHasNoTasks(n: nat)
    requires 0 < n
    ensures Tasks(EmptyMesh(n)) == multiset{}
  {
    var m := EmptyMesh(n);
    NoLocals(m.locals);
    NoChunks(m.ext);
    NoRows(m.mail);
  }

  lemma {:induction false} NoLocals(qs: seq<seq<Task>>)
    requires forall i :: 0 <= i < |qs| ==> qs[i] == []
    ensures LocalBag(qs) == multiset{}
  {
    if qs != [] { NoLocals(qs[1..]); }
  }

  lemma {:induction false} NoChunks(row: seq<seq<Chunk>>)
    requires forall i :: 0 <= i < |row| ==> row[i] == []
    ensures RowBag(row) == multiset{}
  {
    if row != [] { NoChunks(row[1..]); }
  }

  lemma {:induction false} NoRows(rows: seq<seq<seq<Chunk>>>)
    requires forall i, j :: 0 <= i < |rows| && 0 <= j < |rows[i]| ==> rows[i][j] == []
    ensures MatrixBag(rows) == multiset{}
  {
    if rows != [] {
      NoChunks(rows[0]);
      NoRows(rows[1..]);
    }
  }

  // ----- single accesses -----

  /** A mailbox keeps one slot empty. */
  predicate MailboxFull(q: seq<Chunk>) { |q| >= MAILBOX_CAPACITY - 1 }

  predicate LocalFull(q: seq<Task>) { |q| >= LOCAL_QUEUE_CAPACITY - 1 }

  predicate WarehouseFull(q: seq<Chunk>) { |q| >= WAREHOUSE_CAPACITY }

  function SetLocal(m: Mesh, w: nat, q: seq<Task>): (m': Mesh)
    requires m.Shape() && w < m.Workers()
    ensures m'.Shape() && m'.Workers() == m.Workers()
  {
    m.(locals := m.locals[w := q])
  }

  function SetMail(m: Mesh, p: nat, t: nat, q: seq<Chunk>): (m': Mesh)
    requires m.Shape() && p < m.Workers() && t < m.Workers()
    ensures m'.Shape() && m'.Workers() == m.Workers()
  {
    m.(mail := m.mail[p := m.mail[p][t := q]])
  }

  function SetExt(m: Mesh, t: nat, q: seq<Chunk>): (m': Mesh)
    requires m.Shape() && t < m.Workers()
    ensures m'.Shape() && m'.Workers() == m.Workers()
  {
    m.(ext := m.ext[t := q])
  }

  predicate CallerOk(m: Mesh, c: Caller) {
    c.Worker? ==> c.id < m.Workers()
  }

  /** The mailbox that a caller's chunk for `t` goes to. */
  function Inbox(m: Mesh, c: Caller, t: nat): seq<Chunk>
    requires m.Shape() && CallerOk(m, c) && t < m.Workers()
  {
    match c
    case Worker(p) => m.mail[p][t]
    case Host => m.ext[t]
  }

  function SetInbox(m: Mesh, c: Caller, t: nat, q: seq<Chunk>): (m': Mesh)
    requires m.Shape() && CallerOk(m, c) && t < m.Workers()
    ensures m'.Shape() && m'.Workers() == m.Workers()
  {
    match c
    case Worker(p) => SetMail(m, p, t, q)
    case Host => SetExt(m, t, q)
  }

  /** `Mailbox::push` on the caller's mailbox for `t`. */
  function Post(m: Mesh, c: Caller, t: nat, chunk: Chunk): (r: (Mesh, bool))
    requires m.Shape() && CallerOk(m, c) && t < m.Workers()
    ensures r.0.Shape() && r.0.Workers() == m.Workers()
  {
    if MailboxFull(Inbox(m, c, t)) then (m, false) else (SetInbox(m, c, t, Inbox(m, c, t) + [chunk]), true)
  }

  /** `Worker::push_local`. */
  function PushLocal(m: Mesh, w: nat, task: Task): (r: (Mesh, bool))
    requires m.Shape() && w < m.Workers()
    ensures r.0.Shape() && r.0.Workers() == m.Workers()
  {
    if LocalFull(m.locals[w]) then (m, false) else (SetLocal(m, w, m.locals[w] + [task]), true)
  }

  /** `Warehouse::push`, as `park_in_warehouse` uses it: false is the overflow panic. */
  function Park(m: Mesh, chunk: Chunk): (r: (Mesh, bool))
    requires m.Shape()
    ensures r.0.Shape() && r.0.Workers() == m.Workers()
  {
    if WarehouseFull(m.ware) then (m, false) else (m.(ware := m.ware + [chunk]), true)
  }

  /** `Worker::push_batch`. */
  function PushBatch(m: Mesh, w: nat, chunk: Chunk): (m': Mesh)
    requires m.Shape() && w < m.Workers()
    ensures m'.Shape() && m'.Workers() == m.Workers()
  {
    SetLocal(m, w, m.locals[w] + chunk.tasks)
  }

  lemma SetLocalTasks(m: Mesh, w: nat, q: seq<Task>, more: multiset<Task>, less: multiset<Task>)
    requires m.Shape() && w < m.Workers() && multiset(q) + less == multiset(m.locals[w]) + more
    ensures Tasks(SetLocal(m, w, q)) + less == Tasks(m) + more
  {
    forall x ensures (Tasks(SetLocal(m, w, q)) + less)[x] == (Tasks(m) + more)[x] {
      LocalBagUpdate(m.locals, w, q, x);
      assert (multiset(q) + less)[x] == (multiset(m.locals[w]) + more)[x];
    }
  }

  lemma SetInboxCopies(m: Mesh, c: Caller, t: nat, q: seq<Chunk>, x: Task)
    requires m.Shape() && CallerOk(m, c) && t < m.Workers()
    ensures Tasks(SetInbox(m, c, t, q))[x] + Bag(Inbox(m, c, t))[x] == Tasks(m)[x] + Bag(q)[x]
  {
    match c
    case Worker(p) =>
      RowBagUpdate(m.mail[p], t, q, x);
      MatrixBagUpdate(m.mail, p, m.mail[p][t := q], x);
    case Host => RowBagUpdate(m.ext, t, q, x);
  }

  lemma OtherInbox(m: Mesh, c: Caller, t: nat, q: seq<Chunk>, d: Caller, u: nat)
    requires m.Shape() && CallerOk(m, c) && t < m.Workers() && CallerOk(m, d) && u < m.Workers()
    ensures Inbox(SetInbox(m, c, t, q), d, u) == if d == c && u == t then q else Inbox(m, d, u)
    ensures SetInbox(m, c, t, q).locals == m.locals && SetInbox(m, c, t, q).ware == m.ware
  {
  }

  lemma SetInboxTasks(m: Mesh, c: Caller, t: nat, q: seq<Chunk>, more: multiset<Task>, less: multiset<Task>)
    requires m.Shape() && CallerOk(m, c) && t < m.Workers() && Bag(q) + less == Bag(Inbox(m, c, t)) + more
    ensures Tasks(SetInbox(m, c, t, q)) + less == Tasks(m) + more
  {
    var after, before := Tasks(SetInbox(m, c, t, q)), Tasks(m);
    forall x ensures (after + less)[x] == (before + more)[x] {
      assert (Bag(q) + less)[x] == (Bag(Inbox(m, c, t)) + more)[x];
      SetInboxCopies(m, c, t, q, x);
    }
  }

  lemma PostTasks(m: Mesh, c: Caller, t: nat, chunk: Chunk)
    requires m.Shape() && CallerOk(m, c) && t < m.Workers()
    ensures var r := Post(m, c, t, chunk);
            Tasks(r.0) == if r.1 then Tasks(m) + multiset(chunk.tasks) else Tasks(m)
  {
    var q := Inbox(m, c, t);
    BagSnoc(q, chunk);
    SetInboxTasks(m, c, t, q + [chunk], multiset(chunk.tasks), multiset{});
  }

  lemma PushLocalTasks(m: Mesh, w: nat, task: Task)
    requires m.Shape() && w < m.Workers()
    ensures var r := PushLocal(m, w, task);
            Tasks(r.0) == if r.1 then Tasks(m) + multiset{task} else Tasks(m)
  {
    SetLocalTasks(m, w, m.locals[w] + [task], multiset{task}, multiset{});
  }

  lemma ParkTasks(m: Mesh, chunk: Chunk)
    requires m.Shape()
    ensures var r := Park(m, chunk);
            Tasks(r.0) == if r.1 then Tasks(m) + multiset(chunk.tasks) else Tasks(m)
  {
    BagSnoc(m.ware, chunk);
  }

  lemma PushBatchTasks(m: Mesh, w: nat, chunk: Chunk)
    requires m.Shape() && w < m.Workers()
    ensures Tasks(PushBatch(m, w, chunk)) == Tasks(m) + multiset(chunk.tasks)
  {
    SetLocalTasks(m, w, m.locals[w] + chunk.tasks, multiset(chunk.tasks), multiset{});
  }

  lemma BagHead(q: seq<Chunk>)
    requires q != []
    ensures Bag(q) == multiset(q[0].tasks) + Bag(q[1..])
  {
  }

  /** Removing the front chunk of a mailbox, of the warehouse, or the front task of a queue. */
  lemma TakeInboxTasks(m: Mesh, c: Caller, t: nat)
    requires m.Shape() && CallerOk(m, c) && t < m.Workers() && Inbox(m, c, t) != []
    ensures Tasks(m) == Tasks(SetInbox(m, c, t, Inbox(m, c, t)[1..])) + multiset(Inbox(m, c, t)[0].tasks)
  {
    SetInboxTasks(m, c, t, Inbox(m, c, t)[1..], multiset{}, multiset(Inbox(m, c, t)[0].tasks));
  }

  lemma TakeWareTasks(m: Mesh)
    requires m.Shape() && m.ware != []
    ensures Tasks(m) == Tasks(m.(ware := m.ware[1..])) + multiset(m.ware[0].tasks)
  {
  }

  lemma TakeLocalTasks(m: Mesh, w: nat)
    requires m.Shape() && w < m.Workers() && m.locals[w] != []
    ensures Tasks(m) == Tasks(SetLocal(m, w, m.locals[w][1..])) + multiset{m.locals[w][0]}
  {
    assert m.locals[w] == [m.locals[w][0]] + m.locals[w][1..];
    SetLocalTasks(m, w, m.locals[w][1..], multiset{}, multiset{m.locals[w][0]});
  }
}
