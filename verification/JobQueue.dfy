/** The Redis-backed job queue and its workers (enterprise-mcp-server/app/core/job_queue.py
    and worker.py): a FIFO list of ids, one expiring record per id, and any number of workers
    that update records by an unlocked read followed by a write.

    `JobStore` is the code's operations, run by one client. `Sys`, `Enabled` and `Next` cut
    them at each Redis command, which is atomic. */
module JobQueue {

  datatype Option<T> = None | Some(value: T)

  datatype Status = Pending | Running | Completed | Failed

  /** A record; `result` and `error` are empty while the key is absent. */
  datatype Job = Job(id: string, tool: string, args: string, status: Status, result: string, error: string)

  const RESULT_TTL := 3600.0

  datatype Entry = Entry(job: Job, expires: real)

  // ---------------------------------------------------------------------------
  // Redis commands
  // ---------------------------------------------------------------------------

  datatype Redis = Redis(records: map<string, Entry>, queue: seq<string>, now: real)

  /** GET: an expired record is gone. */
  function Read(r: Redis, id: string): Option<Job> {
    if id in r.records && r.now < r.records[id].expires then Some(r.records[id].job) else None
  }

  /** SET with an expiry. */
  function Write(r: Redis, job: Job): Redis {
    r.(records := r.records[job.id := Entry(job, r.now + RESULT_TTL)])
  }

  function New(id: string, tool: string, args: string): Job {
    Job(id, tool, args, Pending, "", "")
  }

  /** What an update changes in the record it read: empty results and errors are not stored. */
  function Amended(j: Job, status: Status, result: string, error: string): Job {
    j.(status := status,
       result := if result != "" then result else j.result,
       error := if error != "" then error else j.error)
  }

  // ---------------------------------------------------------------------------
  // The operations, undisturbed
  // ---------------------------------------------------------------------------

  /** How a read ends: it answers, there is no Redis client to ask, or it raises. */
  datatype Link = Up | Missing | Broken

  /** How a write or a push ends: it takes effect and answers, raises without effect, or takes
      effect while its answer is lost. */
  datatype Reply = Stored | Refused | Lost

  /** How a pop ends: with an answer, without one, or with an answer that is lost. */
  datatype PopReply = Answered | Silent | Vanished

  datatype Outcome = Outcome(redis: Redis, raised: bool)

  /** Without a client an enqueue raises before it does anything. */
  function EnqueueSpec(r: Redis, id: string, tool: string, args: string, client: bool, put: Reply, push: Reply): Outcome {
    if !client || put == Refused then Outcome(r, true)
    else
      var s := Write(r, New(id, tool, args));
      if put == Lost || push == Refused then Outcome(s, true)
      else Outcome(s.(queue := s.queue + [id]), push == Lost)
  }

  /** Without a client an update does nothing and does not say so. */
  function UpdateSpec(r: Redis, id: string, status: Status, result: string, error: string, get: Link, put: Reply): Outcome {
    if get != Up then Outcome(r, get == Broken)
    else
      match Read(r, id)
      case None => Outcome(r, false)
      case Some(j) => Outcome(if put == Refused then r else Write(r, Amended(j, status, result, error)), put != Stored)
  }

  /** One turn of the worker loop: how each of its commands ends, whether the tool succeeds,
      its output or its error, and the text of an exception that a COMPLETED update raises. */
  datatype Turn = Turn(pop: PopReply, load: Link, markGet: Link, markSet: Reply, ok: bool, text: string,
                       closeGet: Link, closeSet: Reply, error: string, failGet: Link, failSet: Reply)

  function TurnSpec(r: Redis, e: Turn): Redis {
    if r.queue == [] || e.pop == Silent then r
    else
      var id, r1 := r.queue[0], r.(queue := r.queue[1..]);
      if !CallsTool(r, e) then (if Loads(r, e) then Marked(r1, id, e).redis else r1)
      else Ended(Marked(r1, id, e).redis, id, e)
  }

  function Marked(r: Redis, id: string, e: Turn): Outcome {
    UpdateSpec(r, id, Running, "", "", e.markGet, e.markSet)
  }

  /** The final update; a COMPLETED update that raises is followed by a FAILED one. */
  function Ended(r: Redis, id: string, e: Turn): Redis {
    if !e.ok then UpdateSpec(r, id, Failed, "", e.text, e.failGet, e.failSet).redis
    else
      var c := UpdateSpec(r, id, Completed, e.text, "", e.closeGet, e.closeSet);
      if c.raised then UpdateSpec(c.redis, id, Failed, "", e.error, e.failGet, e.failSet).redis else c.redis
  }

  /** The worker gets an id and its record. */
  predicate Loads(r: Redis, e: Turn) {
    r.queue != [] && e.pop == Answered && e.load == Up && Read(r, r.queue[0]).Some?
  }

  predicate CallsTool(r: Redis, e: Turn) {
    Loads(r, e) && !Marked(r.(queue := r.queue[1..]), r.queue[0], e).raised
  }

  /** The code's `JobQueue` over one Redis. */
  class JobStore {
    var records: map<string, Entry>
    var queue: seq<string>
    var now: real

    function View(): Redis
      reads this
    {
      Redis(records, queue, now)
    }

    constructor ()
      ensures View() == Redis(map[], [], 0.0)
    {
      records, queue, now := map[], [], 0.0;
    }

    method EnqueueJob(id: string, tool: string, args: string, client: bool, put: Reply, push: Reply) returns (raised: bool)
      modifies this
      ensures Outcome(View(), raised) == EnqueueSpec(old(View()), id, tool, args, client, put, push)
    {
      if !client || put == Refused {
        return true;
      }
      records := records[id := Entry(New(id, tool, args), now + RESULT_TTL)];
      if put == Lost || push == Refused {
        return true;
      }
      queue := queue + [id];
      return push == Lost;
    }

    method GetJobStatus(id: string, get: Link) returns (job: Option<Job>, raised: bool)
      ensures job == if get == Up then Read(View(), id) else None
      ensures raised == (get == Broken)
    {
      if get != Up {
        return None, get == Broken;
      }
      if id in records && now < records[id].expires {
        return Some(records[id].job), false;
      }
      return None, false;
    }

    method UpdateJobStatus(id: string, status: Status, result: string, error: string, get: Link, put: Reply)
      returns (raised: bool)
      modifies this`records
      ensures Outcome(View(), raised) == UpdateSpec(old(View()), id, status, result, error, get, put)
    {
      var data, failed := GetJobStatus(id, get);
      if data == None {
        return failed;
      }
      var job := data.value.(status := status);
      if result != "" {
        job := job.(result := result);
      }
      if error != "" {
        job := job.(error := error);
      }
      if put == Refused {
        return true;
      }
      records := records[job.id := Entry(job, now + RESULT_TTL)];
      return put == Lost;
    }

    method DequeueJob(pop: PopReply) returns (id: Option<string>)
      modifies this`queue
      ensures id == if pop == Answered && old(queue) != [] then Some(old(queue)[0]) else None
      ensures queue == if pop == Silent || old(queue) == [] then old(queue) else old(queue)[1..]
    {
      if pop == Silent || queue == [] {
        return None;
      }
      id := if pop == Answered then Some(queue[0]) else None;
      queue := queue[1..];
    }

    /** The body of `worker_loop`; returns the tool call it made, if any. */
    method WorkerTurn(e: Turn) returns (call: Option<Run>)
      modifies this`records, this`queue
      ensures View() == TurnSpec(old(View()), e)
      ensures call.Some? <==> CallsTool(old(View()), e)
      ensures call.Some? ==>
        var job := Read(old(View()), old(queue)[0]).value;
        call.value == Run(old(queue)[0], job.tool, job.args)
    {
      ghost var start := View();
      call := None;
      var id := DequeueJob(e.pop);
      if id == None {
        return;
      }
      var data, raised := GetJobStatus(id.value, e.load);
      if data == None {
        return;
      }
      assert Read(start, id.value) == data;
      raised := UpdateJobStatus(id.value, Running, "", "", e.markGet, e.markSet);
      if raised {
        return;
      }
      call := Some(Run(id.value, data.value.tool, data.value.args));
      var error := e.text;
      if e.ok {
        raised := UpdateJobStatus(id.value, Completed, e.text, "", e.closeGet, e.closeSet);
        if !raised {
          return;
        }
        error := e.error;
      }
      raised := UpdateJobStatus(id.value, Failed, "", error, e.failGet, e.failSet);
    }
  }

  // ---------------------------------------------------------------------------
  // Interleaved workers
  // ---------------------------------------------------------------------------

  /** Where a worker stands in its loop. `seen` is the record its last read returned, which
      its next write will overwrite with a modified copy. */
  datatype Worker =
    | Idle
    | Taken(id: string)
    | Loaded(id: string, tool: string, args: string)
    | Marking(id: string, tool: string, args: string, seen: Job)
    | Calling(id: string, tool: string, args: string)
    | Called(id: string, ok: bool, text: string)
    | Closing(id: string, ok: bool, text: string, seen: Job)

  /** Where a job is. */
  datatype Place = Enqueuing | Queued | Held(w: nat) | Finished | Dropped

  datatype Run = Run(id: string, tool: string, args: string)

  /** Redis and the workers, and a record of what happened: where each job is, what was
      asked for, the ids pushed and popped, the tools run, the statuses written to each
      record, the jobs whose COMPLETED write took effect but was reported as failed, and the
      jobs whose RUNNING update found no Redis client. */
  datatype Sys = Sys(redis: Redis, workers: seq<Worker>, place: map<string, Place>, asked: map<string, Run>,
                     pushed: seq<string>, popped: seq<string>, ran: seq<Run>,
                     writes: map<string, seq<Status>>, lost: set<string>, skipped: set<string>)

  /** The steps. `NoClient` is an operation that finds no Redis client. `Raises` variants are a Redis command that raises; where `applied` is given
      it says whether the command took effect all the same. */
  datatype Action =
    | Tick(dt: real)
    | Record(id: string, tool: string, args: string)
    | Push(id: string)
    | Abandon(id: string)
    | Pop(w: nat)
    | PopLost(w: nat)
    | Load(w: nat)
    | MarkRead(w: nat)
    | MarkWrite(w: nat)
    | MarkWriteRaises(w: nat, applied: bool)
    | Call(w: nat, ok: bool, text: string)
    | CloseRead(w: nat)
    | CloseWrite(w: nat)
    | CloseWriteRaises(w: nat, applied: bool, error: string)
    | ReadRaises(w: nat, error: string)
    | NoClient(w: nat)

  predicate ByClient(act: Action) {
    act.Tick? || act.Record? || act.Push? || act.Abandon? || act.Pop? || act.PopLost?
  }

  ghost predicate Enabled(s: Sys, act: Action) {
    match act
    case Tick(dt) => dt >= 0.0
    case Record(id, tool, args) => id !in s.asked
    case Push(id) => id in s.place && s.place[id] == Enqueuing
    case Abandon(id) => id in s.place && s.place[id] == Enqueuing
    case Pop(w) => w < |s.workers| && s.workers[w].Idle? && s.redis.queue != []
    case PopLost(w) => w < |s.workers| && s.workers[w].Idle? && s.redis.queue != []
    case _ => act.w < |s.workers| && Ready(s.workers[act.w], act)
  }

  predicate Ready(pc: Worker, act: Action)
    requires !ByClient(act)
  {
    match act
    case Load(_) => pc.Taken?
    case MarkRead(_) => pc.Loaded?
    case MarkWrite(_) => pc.Marking?
    case MarkWriteRaises(_, _) => pc.Marking?
    case Call(_, _, _) => pc.Calling?
    case CloseRead(_) => pc.Called?
    case CloseWrite(_) => pc.Closing?
    case CloseWriteRaises(_, _, _) => pc.Closing?
    case ReadRaises(_, _) => pc.Taken? || pc.Loaded? || pc.Called?
    case NoClient(_) => pc.Taken? || pc.Loaded? || pc.Called?
  }

  /** What one step of a worker does with the job it holds: a record written, the tool run, a
      COMPLETED write whose reply was lost, a RUNNING update skipped, where the worker goes,
      and where the job goes if the worker lets go of it. */
  datatype Effect = Effect(write: Option<Job>, runs: bool, loses: bool, skips: bool, to: Worker, place: Place)

  function Stays(to: Worker): Effect {
    Effect(None, false, false, false, to, Enqueuing)
  }

  function LetsGo(place: Place): Effect {
    Effect(None, false, false, false, Idle, place)
  }

  /** One step of a worker at `pc` whose read, if it reads, returns `got`. */
  function Step(pc: Worker, act: Action, got: Option<Job>): Effect
    requires !ByClient(act) && Ready(pc, act)
  {
    match act
    case Load(_) =>
      if got.None? then LetsGo(Dropped) else Stays(Loaded(pc.id, got.value.tool, got.value.args))
    case MarkRead(_) =>
      if got.None? then Stays(Calling(pc.id, pc.tool, pc.args)) else Stays(Marking(pc.id, pc.tool, pc.args, got.value))
    case MarkWrite(_) =>
      Stays(Calling(pc.id, pc.tool, pc.args)).(write := Some(Amended(pc.seen, Running, "", "")))
    case MarkWriteRaises(_, applied) =>
      LetsGo(Dropped).(write := if applied then Some(Amended(pc.seen, Running, "", "")) else None)
    case Call(_, ok, text) => Stays(Called(pc.id, ok, text)).(runs := true)
    case CloseRead(_) =>
      if got.None? then LetsGo(Finished) else Stays(Closing(pc.id, pc.ok, pc.text, got.value))
    case CloseWrite(_) => LetsGo(Finished).(write := Some(Closed(pc)))
    case CloseWriteRaises(_, applied, error) =>
      // A COMPLETED update that raises is caught beside the tool's own errors and becomes FAILED.
      var f := if pc.ok then Stays(Called(pc.id, false, error)).(loses := applied) else LetsGo(Finished);
      f.(write := if applied then Some(Closed(pc)) else None)
    case ReadRaises(_, error) =>
      if !pc.Called? then LetsGo(Dropped)
      else if pc.ok then Stays(Called(pc.id, false, error))
      else LetsGo(Finished)
    case NoClient(_) =>
      if pc.Taken? then LetsGo(Dropped)
      else if pc.Loaded? then Stays(Calling(pc.id, pc.tool, pc.args)).(skips := true)
      else LetsGo(Finished)
  }

  /** The record a worker is about to write when it closes a job. */
  function Closed(pc: Worker): Job
    requires pc.Closing?
  {
    if pc.ok then Amended(pc.seen, Completed, pc.text, "") else Amended(pc.seen, Failed, "", pc.text)
  }

  ghost function History(s: Sys, id: string): seq<Status> {
    if id in s.writes then s.writes[id] else []
  }

  ghost function Wrote(s: Sys, job: Job): Sys {
    s.(redis := Write(s.redis, job), writes := s.writes[job.id := History(s, job.id) + [job.status]])
  }

  ghost function Apply(s: Sys, w: nat, f: Effect): Sys
    requires w < |s.workers| && !s.workers[w].Idle? && (f.runs ==> s.workers[w].Calling?)
  {
    var pc := s.workers[w];
    var t := if f.write.Some? then Wrote(s, f.write.value) else s;
    t.(workers := s.workers[w := f.to],
       place := s.place[pc.id := if f.to.Idle? then f.place else Held(w)],
       ran := if f.runs then s.ran + [Run(pc.id, pc.tool, pc.args)] else s.ran,
       lost := if f.loses then s.lost + {pc.id} else s.lost,
       skipped := if f.skips then s.skipped + {pc.id} else s.skipped)
  }

  ghost function Next(s: Sys, act: Action): Sys
    requires Enabled(s, act)
  {
    match act
    case Tick(dt) => s.(redis := s.redis.(now := s.redis.now + dt))
    case Record(id, tool, args) =>
      Wrote(s, New(id, tool, args)).(place := s.place[id := Enqueuing], asked := s.asked[id := Run(id, tool, args)])
    case Push(id) =>
      s.(redis := s.redis.(queue := s.redis.queue + [id]), place := s.place[id := Queued], pushed := s.pushed + [id])
    case Abandon(id) => s.(place := s.place[id := Dropped])
    case Pop(w) => Popped(s, Held(w)).(workers := s.workers[w := Taken(s.redis.queue[0])])
    case PopLost(w) => Popped(s, Dropped)
    case _ => Apply(s, act.w, Step(s.workers[act.w], act, Read(s.redis, s.workers[act.w].id)))
  }

  ghost function Popped(s: Sys, p: Place): Sys
    requires s.redis.queue != []
  {
    var id := s.redis.queue[0];
    s.(redis := s.redis.(queue := s.redis.queue[1..]), place := s.place[id := p], popped := s.popped + [id])
  }

  ghost function Start(n: nat): Sys {
    Sys(Redis(map[], [], 0.0), seq(n, i => Idle), map[], map[], [], [], [], map[], {}, {})
  }

  ghost predicate Runs(s: Sys, acts: seq<Action>)
    decreases |acts|
  {
    acts == [] || (Enabled(s, acts[0]) && Runs(Next(s, acts[0]), acts[1..]))
  }

  ghost function After(s: Sys, acts: seq<Action>): Sys
    requires Runs(s, acts)
    decreases |acts|
  {
    if acts == [] then s else After(Next(s, acts[0]), acts[1..])
  }

  // ---------------------------------------------------------------------------
  // The invariant
  // ---------------------------------------------------------------------------

  ghost predicate Distinct(t: seq<string>) {
    forall i, j :: 0 <= i < j < |t| ==> t[i] != t[j]
  }

  /** FIFO: what was popped and what is queued is what was pushed, each id once; a job is
      queued exactly when it is in the list, and a job still being enqueued was not pushed. */
  ghost predicate Fifo(s: Sys) {
    && s.pushed == s.popped + s.redis.queue && Distinct(s.pushed)
    && (forall i :: 0 <= i < |s.redis.queue| ==> s.redis.queue[i] in s.place && s.place[s.redis.queue[i]] == Queued)
    && (forall id :: id in s.place && s.place[id] == Queued ==> id in s.redis.queue)
    && (forall i :: 0 <= i < |s.pushed| ==> s.pushed[i] in s.place && s.place[s.pushed[i]] != Enqueuing)
  }

  ghost predicate Domains(s: Sys) {
    && s.place.Keys == s.asked.Keys == s.writes.Keys == s.redis.records.Keys && s.lost <= s.place.Keys
    && s.skipped <= s.place.Keys
  }

  /** A job is held exactly by the worker that has it. */
  ghost predicate Holders(s: Sys) {
    && (forall w :: 0 <= w < |s.workers| && !s.workers[w].Idle? ==>
          s.workers[w].id in s.place && s.place[s.workers[w].id] == Held(w))
    && (forall id :: id in s.place && s.place[id].Held? ==> !Holder(s, id).Idle? && Holder(s, id).id == id)
  }

  /** The worker that holds a job, or an idle one. */
  ghost function Holder(s: Sys, id: string): Worker
    requires id in s.place
  {
    if s.place[id].Held? && s.place[id].w < |s.workers| then s.workers[s.place[id].w] else Idle
  }

  /** The statuses written before the final ones. */
  function Base(skipped: bool): seq<Status> {
    if skipped then [Pending] else [Pending, Running]
  }

  /** Which sequences of statuses can have been written to a record, given whether the reply to
      its COMPLETED write was lost, whether its RUNNING update was skipped, whether it expired,
      where the job is and its holder. */
  predicate PathOk(h: seq<Status>, lost: bool, skipped: bool, dead: bool, p: Place, pc: Worker) {
    match p
    case Enqueuing => h == [Pending] && !lost && !skipped
    case Queued => h == [Pending] && !lost && !skipped
    case Dropped => (h == [Pending] || h == [Pending, Running]) && !lost && !skipped
    case Finished =>
      if lost then h == Base(skipped) + [Completed] || h == Base(skipped) + [Completed, Failed]
      else h == [Pending] || h == Base(skipped) || h == Base(skipped) + [Completed] || h == Base(skipped) + [Failed]
    case Held(_) =>
      if pc.Taken? || pc.Loaded? || pc.Marking? then h == [Pending] && !lost && !skipped
      else if lost then (pc.Called? || pc.Closing?) && !pc.ok && h == Base(skipped) + [Completed]
      else h == Base(skipped) || (h == [Pending] && dead && !pc.Closing?)
  }

  ghost predicate Dead(r: Redis, id: string) {
    Read(r, id).None?
  }

  /** The record holds what was asked for and the last status written, along a legal path. */
  ghost predicate JobOk(s: Sys, id: string)
    requires id in s.place && Domains(s)
  {
    var j, h := s.redis.records[id].job, s.writes[id];
    && j.id == id && s.asked[id] == Run(id, j.tool, j.args)
    && h != [] && j.status == h[|h| - 1]
    && PathOk(h, id in s.lost, id in s.skipped, Dead(s.redis, id), s.place[id], Holder(s, id))
  }

  /** What a worker carries is what was asked for, and its unlocked read is not stale. */
  ghost predicate CarriesOk(pc: Worker, asked: Run, record: Job) {
    && (pc.Loaded? || pc.Marking? || pc.Calling? ==> Run(pc.id, pc.tool, pc.args) == asked)
    && (pc.Marking? || pc.Closing? ==> pc.seen == record)
  }

  predicate HasRun(p: Place, pc: Worker) {
    p == Finished || (p.Held? && (pc.Called? || pc.Closing?))
  }

  /** Each tool ran at most once, as asked, and exactly for the jobs that got that far. */
  ghost predicate RanOnce(s: Sys) {
    && (forall i, j :: 0 <= i < j < |s.ran| ==> s.ran[i].id != s.ran[j].id)
    && (forall i :: 0 <= i < |s.ran| ==> RanOk(s, s.ran[i]))
    && (forall id :: id in s.place && HasRun(s.place[id], Holder(s, id)) ==> id in s.asked && s.asked[id] in s.ran)
  }

  ghost predicate RanOk(s: Sys, r: Run) {
    r.id in s.asked && s.asked[r.id] == r && r.id in s.place && HasRun(s.place[r.id], Holder(s, r.id))
  }

  ghost predicate Jobs(s: Sys)
    requires Domains(s)
  {
    && (forall id :: id in s.place ==> JobOk(s, id))
    && (forall id :: id in s.place && s.place[id].Held? ==> CarriesOk(Holder(s, id), s.asked[id], s.redis.records[id].job))
  }

  ghost predicate Inv(s: Sys) {
    Domains(s) && Fifo(s) && Holders(s) && Jobs(s) && RanOnce(s)
  }

  // --- steps of the clients and of the list -------------------------------------

  lemma ClientKeepsDomains(s: Sys, act: Action)
    requires Domains(s) && Fifo(s) && Enabled(s, act) && ByClient(act)
    ensures Domains(Next(s, act))
  {
    if act.Pop? || act.PopLost? {
      assert s.redis.queue[0] in s.place;
    }
  }

  lemma HeadIsUnique(popped: seq<string>, q: seq<string>)
    requires q != [] && Distinct(popped + q)
    ensures popped + q == popped + [q[0]] + q[1..]
    ensures q[0] !in q[1..]
  {
    assert q == [q[0]] + q[1..];
    assert forall i :: 0 <= i < |q| ==> (popped + q)[|popped| + i] == q[i];
  }

  lemma PoppedKeepsFifo(s: Sys, p: Place)
    requires Fifo(s) && s.redis.queue != [] && p != Queued && p != Enqueuing
    ensures Fifo(Popped(s, p))
  {
    var q, t := s.redis.queue, Popped(s, p);
    HeadIsUnique(s.popped, q);
    assert forall i :: 0 <= i < |t.redis.queue| ==> t.redis.queue[i] == q[i + 1];
    assert forall x :: x in q && x != q[0] ==> x in t.redis.queue;
  }

  lemma PushKeepsFifo(s: Sys, id: string)
    requires Fifo(s) && Enabled(s, Push(id))
    ensures Fifo(Next(s, Push(id)))
  {
    var t := Next(s, Push(id));
    assert id !in s.pushed;
    assert t.pushed == t.popped + t.redis.queue;
    assert forall x :: x in s.redis.queue ==> x in t.redis.queue;
    assert t.redis.queue[|s.redis.queue|] == id;
  }

  lemma ClientKeepsFifo(s: Sys, act: Action)
    requires Fifo(s) && Domains(s) && Enabled(s, act) && ByClient(act)
    ensures Fifo(Next(s, act))
  {
    match act {
      case Tick(_) =>
      case Record(id, _, _) => assert id !in s.place;
      case Push(id) => PushKeepsFifo(s, id);
      case Abandon(id) =>
      case Pop(w) => PoppedKeepsFifo(s, Held(w));
      case PopLost(w) => PoppedKeepsFifo(s, Dropped);
    }
  }

  lemma ClientKeepsHolders(s: Sys, act: Action)
    requires Holders(s) && Fifo(s) && Domains(s) && Enabled(s, act) && ByClient(act)
    ensures Holders(Next(s, act))
  {
    if act.Pop? || act.PopLost? {
      assert s.redis.queue[0] in s.place && s.place[s.redis.queue[0]] == Queued;
    } else if act.Record? {
      assert act.id !in s.place;
    }
  }

  /** A client's step leaves every held job with its holder, and lets no job run. */
  lemma ClientKeepsHolder(s: Sys, act: Action, id: string)
    requires Holders(s) && Fifo(s) && Domains(s) && Enabled(s, act) && ByClient(act)
    requires id in Next(s, act).place
    ensures id !in s.place ==> Next(s, act).place[id] == Enqueuing
    ensures id in s.place && s.place[id].Held? ==>
              Next(s, act).place[id] == s.place[id] && Holder(Next(s, act), id) == Holder(s, id)
    ensures id in s.place && s.place[id] == Finished ==> Next(s, act).place[id] == Finished
    ensures id in s.place && !s.place[id].Held? && Next(s, act).place[id].Held? ==>
              s.place[id] == Queued && Holder(Next(s, act), id).Taken?
    ensures id in s.place && s.place[id] != Finished ==> Next(s, act).place[id] != Finished
    ensures id in s.place && Next(s, act).place[id] != s.place[id] ==> s.place[id] == Enqueuing || s.place[id] == Queued
    ensures id in s.place && Next(s, act).place[id] == Enqueuing ==> s.place[id] == Enqueuing
  {
    if act.Pop? || act.PopLost? {
      assert s.redis.queue[0] in s.place && s.place[s.redis.queue[0]] == Queued;
    }
  }

  /** Nor does it touch the record of a job it did not just create; the record can expire. */
  lemma ClientKeepsRecord(s: Sys, act: Action, id: string)
    requires Domains(s) && Enabled(s, act) && ByClient(act)
    ensures
      var t := Next(s, act);
      && (id in s.place ==>
            && id in t.redis.records && id in t.writes && id in t.asked
            && t.redis.records[id] == s.redis.records[id] && t.writes[id] == s.writes[id] && t.asked[id] == s.asked[id]
            && (Dead(s.redis, id) ==> Dead(t.redis, id)))
      && t.lost == s.lost && t.skipped == s.skipped
  {
  }

  lemma NewJob(s: Sys, act: Action, id: string)
    requires Domains(s) && Enabled(s, act) && ByClient(act) && Domains(Next(s, act))
    requires id !in s.place && id in Next(s, act).place
    ensures JobOk(Next(s, act), id)
  {
  }

  lemma ClientKeepsJob(s: Sys, act: Action, id: string)
    requires Domains(s) && Fifo(s) && Holders(s) && Enabled(s, act) && ByClient(act)
    requires Domains(Next(s, act)) && id in Next(s, act).place
    requires id in s.place ==> JobOk(s, id)
    ensures JobOk(Next(s, act), id)
  {
    if id in s.place {
      ClientKeepsHolder(s, act, id);
      ClientKeepsRecord(s, act, id);
    } else {
      NewJob(s, act, id);
    }
  }

  lemma ClientKeepsCarried(s: Sys, act: Action, id: string)
    requires Domains(s) && Fifo(s) && Holders(s) && Enabled(s, act) && ByClient(act)
    requires Domains(Next(s, act)) && id in Next(s, act).place
    requires id in s.place && s.place[id].Held? ==> CarriesOk(Holder(s, id), s.asked[id], s.redis.records[id].job)
    ensures Next(s, act).place[id].Held? ==>
              CarriesOk(Holder(Next(s, act), id), Next(s, act).asked[id], Next(s, act).redis.records[id].job)
  {
    ClientKeepsHolder(s, act, id);
  }

  /** Runs are kept by a step that runs nothing. */
  lemma RanOnceStays(s: Sys, t: Sys)
    requires RanOnce(s) && t.ran == s.ran && Domains(s) && Domains(t)
    requires forall id :: id in s.place ==> id in t.place && t.asked[id] == s.asked[id]
    requires forall id :: id in t.place ==>
               (HasRun(t.place[id], Holder(t, id)) <==> id in s.place && HasRun(s.place[id], Holder(s, id)))
    ensures RanOnce(t)
  {
    forall i | 0 <= i < |t.ran|
      ensures RanOk(t, t.ran[i])
    {
      assert RanOk(s, s.ran[i]);
    }
  }

  lemma ClientKeepsRuns(s: Sys, act: Action)
    requires Domains(s) && Fifo(s) && Holders(s) && RanOnce(s) && Enabled(s, act) && ByClient(act)
    requires Domains(Next(s, act))
    ensures RanOnce(Next(s, act))
  {
    var t := Next(s, act);
    forall id | id in t.place
      ensures HasRun(t.place[id], Holder(t, id)) <==> id in s.place && HasRun(s.place[id], Holder(s, id))
    {
      ClientKeepsHolder(s, act, id);
    }
    RanOnceStays(s, t);
  }

  // --- steps of the workers ---------------------------------------------------

  /** What a worker's step does to its own job, and nothing else matters. */
  ghost predicate EffectOk(pc: Worker, f: Effect, asked: Run, record: Job, h: seq<Status>, lost: bool, skipped: bool,
                           dead: bool, w: nat)
    requires !pc.Idle?
  {
    var place := if f.to.Idle? then f.place else Held(w);
    var record' := if f.write.Some? then f.write.value else record;
    var h' := if f.write.Some? then h + [f.write.value.status] else h;
    && (f.to.Idle? ==> f.place == Finished || f.place == Dropped)
    && (!f.to.Idle? ==> f.to.id == pc.id)
    && record'.id == pc.id && asked == Run(pc.id, record'.tool, record'.args)
    && PathOk(h', lost || f.loses, skipped || f.skips, dead && f.write.None?, place, f.to)
    && CarriesOk(f.to, asked, record')
    && HasRun(place, f.to) == (HasRun(Held(w), pc) || f.runs)
    && (f.runs ==> pc.Calling?)
  }

  lemma StepIsOk(pc: Worker, act: Action, asked: Run, record: Job, h: seq<Status>, lost: bool, skipped: bool,
                 dead: bool, w: nat)
    requires !ByClient(act) && Ready(pc, act)
    requires record.id == pc.id && asked == Run(pc.id, record.tool, record.args)
    requires PathOk(h, lost, skipped, dead, Held(w), pc) && CarriesOk(pc, asked, record)
    ensures EffectOk(pc, Step(pc, act, if dead then None else Some(record)), asked, record, h, lost, skipped, dead, w)
  {
    assert [Pending] + [Running] == [Pending, Running];
    assert Base(skipped) + [Completed] + [Failed] == Base(skipped) + [Completed, Failed];
  }

  ghost predicate Works(s: Sys, w: nat, f: Effect) {
    && Domains(s) && Holders(s)
    && w < |s.workers| && !s.workers[w].Idle?
    && var id := s.workers[w].id;
       EffectOk(s.workers[w], f, s.asked[id], s.redis.records[id].job, s.writes[id], id in s.lost,
                id in s.skipped, Dead(s.redis, id), w)
  }

  lemma ApplyKeepsDomains(s: Sys, w: nat, f: Effect)
    requires Works(s, w, f)
    ensures Domains(Apply(s, w, f))
  {
  }

  /** A worker's step can be applied, and writes only the record of its own job. */
  ghost predicate Applies(s: Sys, w: nat, f: Effect) {
    && w < |s.workers| && !s.workers[w].Idle? && (f.runs ==> s.workers[w].Calling?)
    && (f.write.Some? ==> f.write.value.id == s.workers[w].id)
  }

  lemma ApplyKeepsFifo(s: Sys, w: nat, f: Effect)
    requires Applies(s, w, f) && Holders(s) && Fifo(s)
    requires f.to.Idle? ==> f.place == Finished || f.place == Dropped
    ensures Fifo(Apply(s, w, f))
  {
    var id := s.workers[w].id;
    assert s.place[id] == Held(w) && Apply(s, w, f).redis.queue == s.redis.queue;
  }

  lemma ApplyKeepsHolders(s: Sys, w: nat, f: Effect)
    requires Works(s, w, f)
    ensures Holders(Apply(s, w, f))
  {
    assert s.place[s.workers[w].id] == Held(w);
  }

  /** Other jobs, and their holders, do not notice. */
  lemma ApplyKeepsOthers(s: Sys, w: nat, f: Effect, id: string)
    requires Works(s, w, f) && id in s.place && id != s.workers[w].id
    ensures Apply(s, w, f).place[id] == s.place[id] && Holder(Apply(s, w, f), id) == Holder(s, id)
  {
  }

  lemma ApplyKeepsRecord(s: Sys, w: nat, f: Effect, id: string)
    requires Applies(s, w, f) && Domains(s) && id in s.place && id != s.workers[w].id
    ensures
      var t := Apply(s, w, f);
      && id in t.redis.records && id in t.writes
      && t.redis.records[id] == s.redis.records[id] && t.writes[id] == s.writes[id] && t.asked == s.asked
      && (id in t.lost <==> id in s.lost) && (id in t.skipped <==> id in s.skipped) && Dead(t.redis, id) == Dead(s.redis, id)
  {
  }

  lemma ApplyKeepsOther(s: Sys, w: nat, f: Effect, id: string)
    requires Applies(s, w, f) && Domains(s) && Domains(Apply(s, w, f)) && id in s.place && id != s.workers[w].id
    requires Apply(s, w, f).place[id] == s.place[id] && Holder(Apply(s, w, f), id) == Holder(s, id)
    requires JobOk(s, id)
    ensures JobOk(Apply(s, w, f), id)
  {
    ApplyKeepsRecord(s, w, f, id);
  }

  lemma ApplyKeepsCarried(s: Sys, w: nat, f: Effect, id: string)
    requires Applies(s, w, f) && Domains(s) && Domains(Apply(s, w, f)) && id in s.place && id != s.workers[w].id
    requires Apply(s, w, f).place[id] == s.place[id] && Holder(Apply(s, w, f), id) == Holder(s, id)
    requires s.place[id].Held? ==> CarriesOk(Holder(s, id), s.asked[id], s.redis.records[id].job)
    ensures Apply(s, w, f).place[id].Held? ==>
              CarriesOk(Holder(Apply(s, w, f), id), Apply(s, w, f).asked[id], Apply(s, w, f).redis.records[id].job)
  {
    ApplyKeepsRecord(s, w, f, id);
  }

  lemma ApplyOwnRecord(s: Sys, w: nat, f: Effect)
    requires Applies(s, w, f) && Domains(s) && s.workers[w].id in s.place
    ensures
      var t, id := Apply(s, w, f), s.workers[w].id;
      && id in t.redis.records && id in t.writes && t.asked == s.asked
      && t.redis.records[id].job == (if f.write.Some? then f.write.value else s.redis.records[id].job)
      && t.writes[id] == (if f.write.Some? then s.writes[id] + [f.write.value.status] else s.writes[id])
      && (id in t.lost <==> id in s.lost || f.loses) && (id in t.skipped <==> id in s.skipped || f.skips)
      && Dead(t.redis, id) == (Dead(s.redis, id) && f.write.None?)
  {
  }

  lemma ApplyOwnPlace(s: Sys, w: nat, f: Effect)
    requires Applies(s, w, f)
    ensures
      var t, id := Apply(s, w, f), s.workers[w].id;
      id in t.place && t.place[id] == (if f.to.Idle? then f.place else Held(w)) && t.workers[w] == f.to
  {
  }

  lemma ApplyKeepsOwn(s: Sys, w: nat, f: Effect)
    requires Works(s, w, f) && JobOk(s, s.workers[w].id)
    requires Domains(Apply(s, w, f))
    ensures
      var t, id := Apply(s, w, f), s.workers[w].id;
      JobOk(t, id) && (t.place[id].Held? ==> CarriesOk(Holder(t, id), t.asked[id], t.redis.records[id].job))
  {
    ApplyOwnRecord(s, w, f);
    ApplyOwnPlace(s, w, f);
  }

  lemma ApplyKeepsRuns(s: Sys, w: nat, f: Effect)
    requires Works(s, w, f) && RanOnce(s)
    requires CarriesOk(s.workers[w], s.asked[s.workers[w].id], s.redis.records[s.workers[w].id].job)
    requires Domains(Apply(s, w, f))
    ensures RanOnce(Apply(s, w, f))
  {
    var t, me := Apply(s, w, f), s.workers[w].id;
    assert s.place[me] == Held(w) && Holder(s, me) == s.workers[w];
    forall id | id in t.place && id != me
      ensures HasRun(t.place[id], Holder(t, id)) <==> HasRun(s.place[id], Holder(s, id))
    {
      ApplyKeepsOthers(s, w, f, id);
    }
    if f.runs {
      AppendRun(s, t, s.asked[me]);
    } else {
      RanOnceStays(s, t);
    }
  }

  lemma AppendRun(s: Sys, t: Sys, r: Run)
    requires RanOnce(s) && Domains(s) && Domains(t) && t.ran == s.ran + [r] && t.asked == s.asked && t.place.Keys == s.place.Keys
    requires r.id in s.place && s.asked[r.id] == r
    requires !HasRun(s.place[r.id], Holder(s, r.id)) && HasRun(t.place[r.id], Holder(t, r.id))
    requires forall id :: id in t.place && id != r.id ==>
               (HasRun(t.place[id], Holder(t, id)) <==> HasRun(s.place[id], Holder(s, id)))
    ensures RanOnce(t)
  {
    forall i | 0 <= i < |t.ran|
      ensures RanOk(t, t.ran[i]) && (i < |s.ran| ==> t.ran[i].id != r.id)
    {
      if i < |s.ran| {
        assert RanOk(s, s.ran[i]);
      }
    }
    assert t.ran[|s.ran|] == r;
    forall id | id in t.place && HasRun(t.place[id], Holder(t, id))
      ensures id in t.asked && t.asked[id] in t.ran
    {
      if id != r.id {
        assert s.asked[id] in s.ran;
      }
    }
  }

  /** A busy worker's job is its own, and in order. */
  lemma BusyWorker(s: Sys, w: nat)
    requires Domains(s) && Holders(s) && Jobs(s) && w < |s.workers| && !s.workers[w].Idle?
    ensures
      var pc := s.workers[w];
      && pc.id in s.place && s.place[pc.id] == Held(w) && Holder(s, pc.id) == pc
      && JobOk(s, pc.id) && CarriesOk(pc, s.asked[pc.id], s.redis.records[pc.id].job)
  {
    var id := s.workers[w].id;
    assert s.place[id] == Held(w);
    assert Holder(s, id) == s.workers[w];
  }

  lemma WorkerWorks(s: Sys, act: Action)
    requires Domains(s) && Holders(s) && Jobs(s) && Enabled(s, act) && !ByClient(act)
    ensures Works(s, act.w, Step(s.workers[act.w], act, Read(s.redis, s.workers[act.w].id)))
  {
    var pc := s.workers[act.w];
    BusyWorker(s, act.w);
    StepIsOk(pc, act, s.asked[pc.id], s.redis.records[pc.id].job, s.writes[pc.id], pc.id in s.lost, pc.id in s.skipped,
             Dead(s.redis, pc.id), act.w);
  }

  lemma ClientInvariant(s: Sys, act: Action)
    requires Inv(s) && Enabled(s, act) && ByClient(act)
    ensures Inv(Next(s, act))
  {
    var t := Next(s, act);
    ClientKeepsDomains(s, act);
    ClientKeepsFifo(s, act);
    ClientKeepsHolders(s, act);
    ClientKeepsRuns(s, act);
    forall id | id in t.place
      ensures JobOk(t, id) && (t.place[id].Held? ==> CarriesOk(Holder(t, id), t.asked[id], t.redis.records[id].job))
    {
      ClientKeepsJob(s, act, id);
      ClientKeepsCarried(s, act, id);
    }
  }

  /** Every job, the worker's own and the others', is still in order. */
  lemma ApplyKeepsJobs(s: Sys, w: nat, f: Effect, id: string)
    requires Works(s, w, f) && Jobs(s) && Domains(Apply(s, w, f)) && id in Apply(s, w, f).place
    ensures
      var t := Apply(s, w, f);
      JobOk(t, id) && (t.place[id].Held? ==> CarriesOk(Holder(t, id), t.asked[id], t.redis.records[id].job))
  {
    BusyWorker(s, w);
    if id == s.workers[w].id {
      ApplyKeepsOwn(s, w, f);
    } else {
      ApplyKeepsOthers(s, w, f, id);
      ApplyKeepsOther(s, w, f, id);
      ApplyKeepsCarried(s, w, f, id);
    }
  }

  lemma ApplyInvariant(s: Sys, w: nat, f: Effect)
    requires Inv(s) && Works(s, w, f)
    ensures Inv(Apply(s, w, f))
  {
    var t := Apply(s, w, f);
    ApplyKeepsDomains(s, w, f);
    ApplyKeepsFifo(s, w, f);
    ApplyKeepsHolders(s, w, f);
    BusyWorker(s, w);
    ApplyKeepsRuns(s, w, f);
    forall id | id in t.place
      ensures JobOk(t, id) && (t.place[id].Held? ==> CarriesOk(Holder(t, id), t.asked[id], t.redis.records[id].job))
    {
      ApplyKeepsJobs(s, w, f, id);
    }
  }

  lemma StepInvariant(s: Sys, act: Action)
    requires Inv(s) && Enabled(s, act)
    ensures Inv(Next(s, act))
  {
    if ByClient(act) {
      ClientInvariant(s, act);
    } else {
      WorkerWorks(s, act);
      ApplyInvariant(s, act.w, Step(s.workers[act.w], act, Read(s.redis, s.workers[act.w].id)));
    }
  }

  lemma {:induction false} RunInvariant(s: Sys, acts: seq<Action>)
    requires Inv(s) && Runs(s, acts)
    ensures Inv(After(s, acts))
    decreases |acts|
  {
    if acts != [] {
      StepInvariant(s, acts[0]);
      RunInvariant(Next(s, acts[0]), acts[1..]);
    }
  }

  // ---------------------------------------------------------------------------
  // What holds in every run
  // ---------------------------------------------------------------------------

  /** In list order each id once; each job with one worker; each tool run once and as asked. */
  ghost predicate HandedOut(s: Sys) {
    && s.pushed == s.popped + s.redis.queue && Distinct(s.pushed)
    && (forall v, w :: 0 <= v < w < |s.workers| && !s.workers[v].Idle? && !s.workers[w].Idle? ==>
          s.workers[v].id != s.workers[w].id)
    && (forall i, j :: 0 <= i < j < |s.ran| ==> s.ran[i].id != s.ran[j].id)
    && (forall i :: 0 <= i < |s.ran| ==> s.ran[i].id in s.asked && s.asked[s.ran[i].id] == s.ran[i])
  }

  lemma InvHandsOut(s: Sys)
    requires Fifo(s) && Holders(s) && RanOnce(s)
    ensures HandedOut(s)
  {
    forall i | 0 <= i < |s.ran|
      ensures s.ran[i].id in s.asked && s.asked[s.ran[i].id] == s.ran[i]
    {
      assert RanOk(s, s.ran[i]);
    }
  }

  /** Ids are handed out in the order they were pushed, each to at most one worker: whoever
      holds a job is the only one, and each tool runs at most once, with the arguments asked. */
  lemma HandedOutOnce(n: nat, acts: seq<Action>)
    requires Runs(Start(n), acts)
    ensures HandedOut(After(Start(n), acts))
  {
    RunInvariant(Start(n), acts);
    InvHandsOut(After(Start(n), acts));
  }

  lemma PathsGoForward(h: seq<Status>, lost: bool, skipped: bool, dead: bool, p: Place, pc: Worker)
    requires PathOk(h, lost, skipped, dead, p, pc)
    ensures !lost ==> h <= Base(skipped) + [Completed] || h <= Base(skipped) + [Failed]
    ensures lost ==> Base(skipped) + [Completed] <= h <= Base(skipped) + [Completed, Failed]
  {
    assert [Pending] <= Base(skipped) <= Base(skipped) + [Completed] <= Base(skipped) + [Completed, Failed];
    assert Base(skipped) <= Base(skipped) + [Failed];
  }

  /** The statuses written to a record only ever go PENDING, RUNNING, then COMPLETED or
      FAILED, although every update is an unlocked read and write. RUNNING is missing only if
      its update found no Redis client, and FAILED follows COMPLETED only if a COMPLETED write
      took effect while its reply was lost. */
  lemma StatusOnlyMovesForward(n: nat, acts: seq<Action>, id: string)
    requires Runs(Start(n), acts) && id in After(Start(n), acts).place
    ensures
      var s := After(Start(n), acts);
      var base := Base(id in s.skipped);
      && Domains(s) && s.writes[id] != []
      && s.redis.records[id].job.status == s.writes[id][|s.writes[id]| - 1]
      && (id !in s.lost ==> s.writes[id] <= base + [Completed] || s.writes[id] <= base + [Failed])
      && (id in s.lost ==> base + [Completed] <= s.writes[id] <= base + [Completed, Failed])
  {
    RunInvariant(Start(n), acts);
    var s := After(Start(n), acts);
    assert JobOk(s, id);
    PathsGoForward(s.writes[id], id in s.lost, id in s.skipped, Dead(s.redis, id), s.place[id], Holder(s, id));
  }

  /** Every job asked for is in exactly one place: still with its client, in the list, with
      the one worker that has its id, finished after its tool ran, or dropped without. */
  lemma EveryJobIsSomewhere(n: nat, acts: seq<Action>, id: string)
    requires Runs(Start(n), acts) && id in After(Start(n), acts).asked
    ensures
      var s := After(Start(n), acts);
      && id in s.place
      && (s.place[id] == Queued <==> id in s.redis.queue)
      && (s.place[id].Held? <==> exists w :: 0 <= w < |s.workers| && !s.workers[w].Idle? && s.workers[w].id == id)
      && (s.place[id] == Finished ==> s.asked[id] in s.ran)
      && (s.place[id] == Dropped ==> s.asked[id] !in s.ran)
  {
    RunInvariant(Start(n), acts);
    var s := After(Start(n), acts);
    if s.place[id].Held? {
      assert Holder(s, id).id == id && s.workers[s.place[id].w].id == id;
    }
    if s.asked[id] in s.ran {
      assert JobOk(s, id);
      var i :| 0 <= i < |s.ran| && s.ran[i] == s.asked[id];
      assert RanOk(s, s.ran[i]);
    }
  }

  // ---------------------------------------------------------------------------
  // The loop body is a run of these steps
  // ---------------------------------------------------------------------------

  lemma RunsStep(s: Sys, act: Action, rest: seq<Action>)
    requires Enabled(s, act) && Runs(Next(s, act), rest)
    ensures Runs(s, [act] + rest) && After(s, [act] + rest) == After(Next(s, act), rest)
  {
    assert ([act] + rest)[1..] == rest;
  }

  lemma HeadFirst(a: seq<Action>, b: seq<Action>)
    requires a != []
    ensures [a[0]] + (a[1..] + b) == a + b
  {
  }

  lemma RunsRest(s: Sys, acts: seq<Action>)
    requires Runs(s, acts) && acts != []
    ensures Enabled(s, acts[0]) && Runs(Next(s, acts[0]), acts[1..])
    ensures After(s, acts) == After(Next(s, acts[0]), acts[1..])
  {
  }

  lemma {:induction false} RunsConcat(s: Sys, a: seq<Action>, b: seq<Action>)
    requires Runs(s, a) && Runs(After(s, a), b)
    ensures Runs(s, a + b) && After(s, a + b) == After(After(s, a), b)
    decreases |a|
  {
    if a == [] {
      assert a + b == b;
    } else {
      RunsRest(s, a);
      RunsConcat(Next(s, a[0]), a[1..], b);
      RunsStep(s, a[0], a[1..] + b);
      HeadFirst(a, b);
    }
  }

  lemma TwoSteps(s: Sys, x: Action, y: Action)
    requires Enabled(s, x) && Enabled(Next(s, x), y)
    ensures Runs(s, [x, y]) && After(s, [x, y]) == Next(Next(s, x), y)
  {
    RunsStep(Next(s, x), y, []);
    RunsStep(s, x, [y]);
    assert [x] + [y] == [x, y];
  }

  /** An enqueue is one step for each command that takes effect. */
  ghost function EnqueueActions(id: string, tool: string, args: string, client: bool, put: Reply, push: Reply): seq<Action> {
    if !client || put == Refused then []
    else if put == Lost || push == Refused then [Record(id, tool, args), Abandon(id)]
    else [Record(id, tool, args), Push(id)]
  }

  /** Undisturbed, the steps of a client are `enqueue_job`. */
  lemma EnqueueIsARun(s: Sys, id: string, tool: string, args: string, client: bool, put: Reply, push: Reply)
    requires id !in s.asked
    ensures
      var acts := EnqueueActions(id, tool, args, client, put, push);
      && Runs(s, acts)
      && After(s, acts).redis == EnqueueSpec(s.redis, id, tool, args, client, put, push).redis
      && After(s, acts).workers == s.workers
  {
    if client && put != Refused {
      TwoSteps(s, Record(id, tool, args), if put == Lost || push == Refused then Abandon(id) else Push(id));
    }
  }

  /** A write step of a worker, by how it ends. */
  function MarkStep(w: nat, put: Reply): Action {
    match put
    case Stored => MarkWrite(w)
    case Refused => MarkWriteRaises(w, false)
    case Lost => MarkWriteRaises(w, true)
  }

  function CloseStep(w: nat, put: Reply, error: string): Action {
    match put
    case Stored => CloseWrite(w)
    case Refused => CloseWriteRaises(w, false, error)
    case Lost => CloseWriteRaises(w, true, error)
  }

  ghost function MarkActions(s: Sys, w: nat, get: Link, put: Reply): seq<Action>
    requires w < |s.workers| && s.workers[w].Loaded?
  {
    match get
    case Missing => [NoClient(w)]
    case Broken => [ReadRaises(w, "")]
    case Up => if Read(s.redis, s.workers[w].id).None? then [MarkRead(w)] else [MarkRead(w), MarkStep(w, put)]
  }

  ghost function CloseActions(s: Sys, w: nat, get: Link, put: Reply, error: string): seq<Action>
    requires w < |s.workers| && s.workers[w].Called?
  {
    match get
    case Missing => [NoClient(w)]
    case Broken => [ReadRaises(w, error)]
    case Up => if Read(s.redis, s.workers[w].id).None? then [CloseRead(w)] else [CloseRead(w), CloseStep(w, put, error)]
  }

  lemma OneStep(s: Sys, x: Action)
    requires Enabled(s, x)
    ensures Runs(s, [x]) && After(s, [x]) == Next(s, x)
  {
    RunsStep(s, x, []);
  }

  /** The RUNNING update of the loop body is a read step and a write step, however they end. */
  lemma MarkIsAnUpdate(s: Sys, w: nat, get: Link, put: Reply)
    requires w < |s.workers| && s.workers[w].Loaded?
    ensures
      var pc, acts := s.workers[w], MarkActions(s, w, get, put);
      var u := UpdateSpec(s.redis, pc.id, Running, "", "", get, put);
      && Runs(s, acts)
      && After(s, acts).redis == u.redis
      && After(s, acts).workers == s.workers[w := if u.raised then Idle else Calling(pc.id, pc.tool, pc.args)]
  {
    match get
    case Missing => OneStep(s, NoClient(w));
    case Broken => OneStep(s, ReadRaises(w, ""));
    case Up =>
      if Read(s.redis, s.workers[w].id).None? {
        OneStep(s, MarkRead(w));
      } else {
        MarkTwice(s, w, put);
      }
  }

  lemma MarkTwice(s: Sys, w: nat, put: Reply)
    requires w < |s.workers| && s.workers[w].Loaded? && Read(s.redis, s.workers[w].id).Some?
    ensures
      var pc, acts := s.workers[w], [MarkRead(w), MarkStep(w, put)];
      var u := UpdateSpec(s.redis, pc.id, Running, "", "", Up, put);
      && Runs(s, acts)
      && After(s, acts).redis == u.redis
      && After(s, acts).workers == s.workers[w := if u.raised then Idle else Calling(pc.id, pc.tool, pc.args)]
  {
    TwoSteps(s, MarkRead(w), MarkStep(w, put));
  }

  /** The final update of a worker, by how its tool ended. */
  function FinalUpdate(r: Redis, pc: Worker, get: Link, put: Reply): Outcome
    requires pc.Called?
  {
    if pc.ok then UpdateSpec(r, pc.id, Completed, pc.text, "", get, put)
    else UpdateSpec(r, pc.id, Failed, "", pc.text, get, put)
  }

  /** Likewise the final update; a COMPLETED update that raises leaves the worker with an error
      to report. */
  lemma CloseIsAnUpdate(s: Sys, w: nat, get: Link, put: Reply, error: string)
    requires w < |s.workers| && s.workers[w].Called?
    ensures
      var pc, acts := s.workers[w], CloseActions(s, w, get, put, error);
      var u := FinalUpdate(s.redis, pc, get, put);
      && Runs(s, acts)
      && After(s, acts).redis == u.redis
      && After(s, acts).workers == s.workers[w := if u.raised && pc.ok then Called(pc.id, false, error) else Idle]
  {
    match get
    case Missing => OneStep(s, NoClient(w));
    case Broken => OneStep(s, ReadRaises(w, error));
    case Up =>
      if Read(s.redis, s.workers[w].id).None? {
        OneStep(s, CloseRead(w));
      } else {
        CloseTwice(s, w, put, error);
      }
  }

  lemma CloseTwice(s: Sys, w: nat, put: Reply, error: string)
    requires w < |s.workers| && s.workers[w].Called? && Read(s.redis, s.workers[w].id).Some?
    ensures
      var pc, acts := s.workers[w], [CloseRead(w), CloseStep(w, put, error)];
      var u := FinalUpdate(s.redis, pc, Up, put);
      && Runs(s, acts)
      && After(s, acts).redis == u.redis
      && After(s, acts).workers == s.workers[w := if u.raised && pc.ok then Called(pc.id, false, error) else Idle]
  {
    TwoSteps(s, CloseRead(w), CloseStep(w, put, error));
  }

  /** From the end of the tool: the final update, and the FAILED one if it raises. */
  lemma EndIsARun(s: Sys, w: nat, e: Turn) returns (acts: seq<Action>)
    requires w < |s.workers| && s.workers[w].Called? && s.workers[w].ok == e.ok && s.workers[w].text == e.text
    ensures Runs(s, acts) && After(s, acts).redis == Ended(s.redis, s.workers[w].id, e)
    ensures After(s, acts).workers == s.workers[w := Idle]
  {
    if !e.ok {
      acts := CloseActions(s, w, e.failGet, e.failSet, "");
      CloseIsAnUpdate(s, w, e.failGet, e.failSet, "");
    } else {
      acts := CloseActions(s, w, e.closeGet, e.closeSet, e.error);
      CloseIsAnUpdate(s, w, e.closeGet, e.closeSet, e.error);
      var t := After(s, acts);
      if FinalUpdate(s.redis, s.workers[w], e.closeGet, e.closeSet).raised {
        CloseIsAnUpdate(t, w, e.failGet, e.failSet, "");
        var more := CloseActions(t, w, e.failGet, e.failSet, "");
        RunsConcat(s, acts, more);
        acts := acts + more;
      }
    }
  }

  /** From its record in hand: the worker marks the job, calls the tool and ends. */
  lemma MarkedIsARun(s: Sys, w: nat, e: Turn) returns (acts: seq<Action>)
    requires w < |s.workers| && s.workers[w].Loaded?
    ensures
      var id := s.workers[w].id;
      var m := Marked(s.redis, id, e);
      && Runs(s, acts) && After(s, acts).redis == (if m.raised then m.redis else Ended(m.redis, id, e))
      && After(s, acts).workers == s.workers[w := Idle]
  {
    acts := MarkActions(s, w, e.markGet, e.markSet);
    MarkIsAnUpdate(s, w, e.markGet, e.markSet);
    var t := After(s, acts);
    if !Marked(s.redis, s.workers[w].id, e).raised {
      OneStep(t, Call(w, e.ok, e.text));
      RunsConcat(s, acts, [Call(w, e.ok, e.text)]);
      acts := acts + [Call(w, e.ok, e.text)];
      var more := EndIsARun(After(s, acts), w, e);
      RunsConcat(s, acts, more);
      acts := acts + more;
    }
  }

  function LoadStep(w: nat, load: Link): Action {
    match load
    case Up => Load(w)
    case Missing => NoClient(w)
    case Broken => ReadRaises(w, "")
  }

  /** The pop and the read of the record. */
  lemma TakeIsARun(s: Sys, w: nat, e: Turn) returns (acts: seq<Action>)
    requires w < |s.workers| && s.workers[w].Idle? && s.redis.queue != [] && e.pop != Silent
    ensures
      var id := s.redis.queue[0];
      && Runs(s, acts) && After(s, acts).redis == s.redis.(queue := s.redis.queue[1..])
      && After(s, acts).workers == (if Loads(s.redis, e) then
                         var job := Read(s.redis, id).value;
                         s.workers[w := Loaded(id, job.tool, job.args)]
                       else s.workers)
  {
    if e.pop == Vanished {
      acts := [PopLost(w)];
      OneStep(s, PopLost(w));
    } else {
      acts := [Pop(w), LoadStep(w, e.load)];
      TwoSteps(s, Pop(w), LoadStep(w, e.load));
    }
  }

  /** Undisturbed, the steps of one worker for one job are the loop body, however each of its
      commands ends. */
  lemma TurnIsARun(s: Sys, w: nat, e: Turn) returns (acts: seq<Action>)
    requires w < |s.workers| && s.workers[w].Idle?
    ensures Runs(s, acts) && After(s, acts).redis == TurnSpec(s.redis, e) && After(s, acts).workers == s.workers
  {
    if s.redis.queue == [] || e.pop == Silent {
      acts := [];
    } else {
      acts := TakeIsARun(s, w, e);
      if Loads(s.redis, e) {
        var more := MarkedIsARun(After(s, acts), w, e);
        RunsConcat(s, acts, more);
        acts := acts + more;
        assert s.workers[w := Idle] == s.workers;
      }
    }
  }

  // ---------------------------------------------------------------------------
  // FAILED after COMPLETED
  // ---------------------------------------------------------------------------

  /** When the reply to a COMPLETED write was lost, the worker reports an error next, and the
      record ends with FAILED after COMPLETED exactly when that update finds the record and
      its write takes effect. */
  lemma LostReplyEndsFailedIff(n: nat, acts: seq<Action>, w: nat, get: Link, put: Reply)
    requires Runs(Start(n), acts)
    requires w < |After(Start(n), acts).workers| && After(Start(n), acts).workers[w].Called?
    requires After(Start(n), acts).workers[w].id in After(Start(n), acts).lost
    ensures
      var s := After(Start(n), acts);
      var id, more := s.workers[w].id, CloseActions(s, w, get, put, "");
      && Runs(s, more) && id in After(s, more).writes
      && After(s, more).writes[id] == Base(id in s.skipped) + [Completed] +
                                      if get == Up && Read(s.redis, id).Some? && put != Refused then [Failed] else []
  {
    RunInvariant(Start(n), acts);
    var s := After(Start(n), acts);
    BusyWorker(s, w);
    CloseIsAnUpdate(s, w, get, put, "");
    CloseWrites(s, w, get, put);
  }

  /** What the final update of a failed job adds to the statuses written. */
  lemma CloseWrites(s: Sys, w: nat, get: Link, put: Reply)
    requires w < |s.workers| && s.workers[w].Called? && !s.workers[w].ok && s.workers[w].id in s.writes
    requires Read(s.redis, s.workers[w].id).Some? ==> Read(s.redis, s.workers[w].id).value.id == s.workers[w].id
    requires Runs(s, CloseActions(s, w, get, put, ""))
    ensures
      var id, t := s.workers[w].id, After(s, CloseActions(s, w, get, put, ""));
      id in t.writes &&
      t.writes[id] == s.writes[id] + if get == Up && Read(s.redis, id).Some? && put != Refused then [Failed] else []
  {
    match get
    case Missing => OneStep(s, NoClient(w));
    case Broken => OneStep(s, ReadRaises(w, ""));
    case Up =>
      if Read(s.redis, s.workers[w].id).None? {
        OneStep(s, CloseRead(w));
      } else {
        TwoSteps(s, CloseRead(w), CloseStep(w, put, ""));
      }
  }

  lemma OneMore(s: Sys, acts: seq<Action>, act: Action)
    requires Runs(s, acts) && Enabled(After(s, acts), act)
    ensures Runs(s, acts + [act]) && After(s, acts + [act]) == Next(After(s, acts), act)
  {
    OneStep(After(s, acts), act);
    RunsConcat(s, acts, [act]);
  }

  /** One worker at `pc` with the one job, whose record is fresh, after the statuses `h`. */
  ghost predicate Lone(s: Sys, pc: Worker, job: Job, h: seq<Status>) {
    && |s.workers| == 1 && s.workers[0] == pc && s.redis.now == 0.0
    && job.id in s.writes && s.writes[job.id] == h
    && job.id in s.redis.records && s.redis.records[job.id] == Entry(job, RESULT_TTL)
  }

  /** What such a worker's next step does. */
  lemma LoneStep(n: Sys, acts: seq<Action>, act: Action, pc: Worker, job: Job, h: seq<Status>)
    returns (more: seq<Action>)
    requires Runs(n, acts) && Lone(After(n, acts), pc, job, h) && !pc.Idle? && pc.id == job.id
    requires !ByClient(act) && act.w == 0 && Ready(pc, act)
    requires (act.MarkWrite? || act.CloseWrite? || act.CloseWriteRaises?) ==> pc.seen == job
    requires !act.MarkWriteRaises?
    ensures
      var f := Step(pc, act, Some(job));
      && Runs(n, more)
      && Lone(After(n, more), f.to, if f.write.Some? then f.write.value else job,
              if f.write.Some? then h + [f.write.value.status] else h)
  {
    OneMore(n, acts, act);
    more := acts + [act];
  }

  lemma UpToTaken(id: string, tool: string, args: string) returns (acts: seq<Action>)
    ensures Runs(Start(1), acts) && Lone(After(Start(1), acts), Taken(id), New(id, tool, args), [Pending])
  {
    var s := Start(1);
    acts := [Record(id, tool, args), Push(id)];
    assert History(s, id) + [Pending] == [Pending];
    TwoSteps(s, acts[0], acts[1]);
    OneMore(s, acts, Pop(0));
    acts := acts + [Pop(0)];
  }

  lemma UpToLoaded(id: string, tool: string, args: string) returns (acts: seq<Action>)
    ensures Runs(Start(1), acts) && Lone(After(Start(1), acts), Loaded(id, tool, args), New(id, tool, args), [Pending])
  {
    acts := UpToTaken(id, tool, args);
    acts := LoneStep(Start(1), acts, Load(0), Taken(id), New(id, tool, args), [Pending]);
  }

  lemma UpToUnmarked(id: string, tool: string, args: string) returns (acts: seq<Action>)
    ensures Runs(Start(1), acts)
    ensures Lone(After(Start(1), acts), Calling(id, tool, args), New(id, tool, args), [Pending])
  {
    acts := UpToLoaded(id, tool, args);
    acts := LoneStep(Start(1), acts, NoClient(0), Loaded(id, tool, args), New(id, tool, args), [Pending]);
  }

  lemma UpToRunning(id: string, tool: string, args: string) returns (acts: seq<Action>)
    ensures Runs(Start(1), acts)
    ensures Lone(After(Start(1), acts), Calling(id, tool, args), Job(id, tool, args, Running, "", ""), [Pending, Running])
  {
    var job := New(id, tool, args);
    acts := UpToLoaded(id, tool, args);
    acts := LoneStep(Start(1), acts, MarkRead(0), Loaded(id, tool, args), job, [Pending]);
    acts := LoneStep(Start(1), acts, MarkWrite(0), Marking(id, tool, args, job), job, [Pending]);
    assert [Pending] + [Running] == [Pending, Running];
  }

  lemma UpToClosing(n: Sys, acts: seq<Action>, job: Job, h: seq<Status>, text: string) returns (more: seq<Action>)
    requires Runs(n, acts) && Lone(After(n, acts), Calling(job.id, job.tool, job.args), job, h)
    ensures Runs(n, more) && Lone(After(n, more), Closing(job.id, true, text, job), job, h)
  {
    more := LoneStep(n, acts, Call(0, true, text), Calling(job.id, job.tool, job.args), job, h);
    more := LoneStep(n, more, CloseRead(0), Called(job.id, true, text), job, h);
  }

  /** A record that goes from COMPLETED to FAILED exists: one worker, and the reply to its
      COMPLETED write lost. */
  lemma CompletedThenFailed(id: string, tool: string, args: string, text: string, error: string)
    ensures exists acts :: Runs(Start(1), acts) && id in After(Start(1), acts).writes
                           && After(Start(1), acts).writes[id] == [Pending, Running, Completed, Failed]
  {
    var n, running, h := Start(1), Job(id, tool, args, Running, "", ""), [Pending, Running];
    var acts := UpToRunning(id, tool, args);
    acts := UpToClosing(n, acts, running, h, text);
    acts := LoneStep(n, acts, CloseWriteRaises(0, true, error), Closing(id, true, text, running), running, h);
    acts := UpToFailed(n, acts, Amended(running, Completed, text, ""), h + [Completed], error);
    assert h + [Completed] + [Failed] == [Pending, Running, Completed, Failed];
  }

  lemma UpToFailed(n: Sys, acts: seq<Action>, job: Job, h: seq<Status>, error: string) returns (more: seq<Action>)
    requires Runs(n, acts) && Lone(After(n, acts), Called(job.id, false, error), job, h)
    ensures Runs(n, more) && Lone(After(n, more), Idle, Amended(job, Failed, "", error), h + [Failed])
  {
    more := LoneStep(n, acts, CloseRead(0), Called(job.id, false, error), job, h);
    more := LoneStep(n, more, CloseWrite(0), Closing(job.id, false, error, job), job, h);
  }

  /** And a record that skips RUNNING: no client when that update is due. */
  lemma CompletedWithoutRunning(id: string, tool: string, args: string, text: string)
    ensures exists acts :: Runs(Start(1), acts) && id in After(Start(1), acts).writes
                           && After(Start(1), acts).writes[id] == [Pending, Completed]
  {
    var n, job := Start(1), New(id, tool, args);
    var acts := UpToUnmarked(id, tool, args);
    acts := UpToClosing(n, acts, job, [Pending], text);
    acts := LoneStep(n, acts, CloseWrite(0), Closing(id, true, text, job), job, [Pending]);
    assert [Pending] + [Completed] == [Pending, Completed];
  }

  // ---------------------------------------------------------------------------
  // What a record holds
  // ---------------------------------------------------------------------------

  function Later(r: Redis, dt: real): Redis {
    r.(now := r.now + dt)
  }

  predicate ReadsAs(j: Job, id: string, tool: string, args: string, status: Status) {
    j.id == id && j.tool == tool && j.args == args && j.status == status
  }

  /** An update that takes effect, read back: the result replaces only the result and the error
      only the error, empty texts replace nothing, and no other record changes. */
  lemma UpdateReadsBack(r: Redis, id: string, status: Status, result: string, error: string, put: Reply, other: string)
    requires Read(r, id).Some? && Read(r, id).value.id == id && put != Refused && other != id
    ensures
      var j, after := Read(r, id).value, UpdateSpec(r, id, status, result, error, Up, put).redis;
      && Read(after, other) == Read(r, other) && after.queue == r.queue
      && Read(after, id).Some? && ReadsAs(Read(after, id).value, id, j.tool, j.args, status)
      && (result != "" ==> Read(after, id).value.result == result)
      && (result == "" ==> Read(after, id).value.result == j.result)
      && (error != "" ==> Read(after, id).value.error == error)
      && (error == "" ==> Read(after, id).value.error == j.error)
  {
  }

  /** A record just enqueued, read back: pending, as asked, with no result and no error; its id
      is the last in the list. */
  lemma EnqueueReadsBack(r: Redis, id: string, tool: string, args: string, put: Reply, push: Reply, other: string)
    requires put != Refused && other != id
    ensures
      var after := EnqueueSpec(r, id, tool, args, true, put, push).redis;
      && Read(after, id).Some? && ReadsAs(Read(after, id).value, id, tool, args, Pending)
      && Read(after, id).value.result == "" && Read(after, id).value.error == ""
      && Read(after, other) == Read(r, other)
      && after.queue == r.queue + if put == Stored && push != Refused then [id] else []
  {
    assert r.queue + [] == r.queue;
  }

  /** An enqueue raises unless every command answers, and an update exactly when one of its
      commands raises; what raises without effect leaves Redis as it was. */
  lemma RaisesIff(r: Redis, id: string, tool: string, args: string, client: bool, put: Reply, push: Reply,
                  status: Status, result: string, error: string, get: Link)
    ensures
      var q := EnqueueSpec(r, id, tool, args, client, put, push);
      && (!q.raised <==> client && put == Stored && push == Stored)
      && (!client || put == Refused ==> q.redis == r)
    ensures
      var u := UpdateSpec(r, id, status, result, error, get, put);
      && (u.raised <==> get == Broken || (get == Up && Read(r, id).Some? && put != Stored))
      && (get != Up || Read(r, id).None? || put == Refused ==> u.redis == r)
  {
  }

  /** A record can be read for exactly one hour after it was last written. */
  lemma RecordLivesOneHour(r: Redis, job: Job, dt: real)
    requires dt >= 0.0
    ensures Read(Later(Write(r, job), dt), job.id) == if dt < 3600.0 then Some(job) else None
  {
  }

  /** An update that takes effect renews that hour, whatever was left of it. */
  lemma UpdateRenews(r: Redis, id: string, status: Status, result: string, error: string, put: Reply, dt: real)
    requires Read(r, id).Some? && Read(r, id).value.id == id && put != Refused && dt >= 0.0
    ensures Read(Later(UpdateSpec(r, id, status, result, error, Up, put).redis, dt), id).Some? <==> dt < 3600.0
  {
  }

  /** What a run has told about one job: the output of its tool, and the last error that its
      tool or its COMPLETED update raised. */
  datatype Told = Told(output: Option<string>, failure: Option<string>)

  function Hears(t: Told, pc: Worker, act: Action): Told
    requires !ByClient(act) && Ready(pc, act)
  {
    match act
    case Call(_, ok, text) => if ok then t.(output := Some(text)) else t.(failure := Some(text))
    case CloseWriteRaises(_, _, error) => if pc.ok then t.(failure := Some(error)) else t
    case ReadRaises(_, error) => if pc.Called? && pc.ok then t.(failure := Some(error)) else t
    case _ => t
  }

  /** What is told about job `id` by a step. */
  ghost function HearsOf(t: Told, s: Sys, act: Action, id: string): Told
    requires Enabled(s, act)
  {
    if !ByClient(act) && s.workers[act.w].id == id then Hears(t, s.workers[act.w], act) else t
  }

  ghost function ToldBy(s: Sys, acts: seq<Action>, id: string, t: Told): Told
    requires Runs(s, acts)
    decreases |acts|
  {
    if acts == [] then t else ToldBy(Next(s, acts[0]), acts[1..], id, HearsOf(t, s, acts[0], id))
  }

  /** The record agrees with what was told, by the statuses written so far. */
  ghost predicate RecordSays(t: Told, h: seq<Status>, j: Job) {
    && (if Completed in h then t.output == Some(j.result) else j.result == "")
    && (if Failed in h then t.failure == Some(j.error) else j.error == "")
  }

  /** And so does the worker that is about to write it. */
  ghost predicate WorkerSays(t: Told, h: seq<Status>, pc: Worker) {
    (pc.Called? || pc.Closing?) ==>
      if pc.ok then t.output == Some(pc.text) && Completed !in h && Failed !in h
      else t.failure == Some(pc.text) && Failed !in h
  }

  ghost predicate Says(s: Sys, id: string, t: Told)
    requires Domains(s)
  {
    id in s.place ==>
      && RecordSays(t, s.writes[id], s.redis.records[id].job)
      && WorkerSays(t, s.writes[id], Holder(s, id))
  }

  lemma InAppended(h: seq<Status>, x: Status, y: Status)
    ensures y in h + [x] <==> y in h || y == x
  {
  }

  /** One step of the worker that has the job. */
  lemma StepSays(pc: Worker, act: Action, t: Told, j: Job, h: seq<Status>, lost: bool, skipped: bool, dead: bool, w: nat)
    requires !ByClient(act) && Ready(pc, act)
    requires RecordSays(t, h, j) && WorkerSays(t, h, pc) && (pc.Marking? || pc.Closing? ==> pc.seen == j)
    requires PathOk(h, lost, skipped, dead, Held(w), pc)
    ensures
      var f := Step(pc, act, if dead then None else Some(j));
      var h' := if f.write.Some? then h + [f.write.value.status] else h;
      && RecordSays(Hears(t, pc, act), h', if f.write.Some? then f.write.value else j)
      && WorkerSays(Hears(t, pc, act), h', f.to)
  {
    InAppended(h, Running, Completed);
    InAppended(h, Running, Failed);
    InAppended(h, Completed, Completed);
    InAppended(h, Completed, Failed);
    InAppended(h, Failed, Completed);
    InAppended(h, Failed, Failed);
  }

  lemma ClientSays(s: Sys, act: Action, id: string, t: Told)
    requires Domains(s) && Fifo(s) && Holders(s) && Enabled(s, act) && ByClient(act) && Domains(Next(s, act))
    requires Says(s, id, t) && (id !in s.place ==> t == Told(None, None))
    ensures Says(Next(s, act), id, t)
  {
    if id in Next(s, act).place {
      ClientKeepsHolder(s, act, id);
      ClientKeepsRecord(s, act, id);
    }
  }

  /** What a worker's step leaves of its own job is as said. */
  ghost predicate SaysOwn(s: Sys, w: nat, f: Effect, t: Told)
    requires Domains(s) && w < |s.workers| && !s.workers[w].Idle? && s.workers[w].id in s.place
  {
    var id := s.workers[w].id;
    var h' := if f.write.Some? then s.writes[id] + [f.write.value.status] else s.writes[id];
    RecordSays(t, h', if f.write.Some? then f.write.value else s.redis.records[id].job) && WorkerSays(t, h', f.to)
  }

  lemma OwnStepSays(s: Sys, act: Action, t: Told)
    requires Domains(s) && Holders(s) && Jobs(s) && Enabled(s, act) && !ByClient(act)
    requires Says(s, s.workers[act.w].id, t)
    ensures
      var pc := s.workers[act.w];
      pc.id in s.place && SaysOwn(s, act.w, Step(pc, act, Read(s.redis, pc.id)), Hears(t, pc, act))
  {
    var w, pc := act.w, s.workers[act.w];
    BusyWorker(s, w);
    StepSays(pc, act, t, s.redis.records[pc.id].job, s.writes[pc.id], pc.id in s.lost, pc.id in s.skipped,
             Dead(s.redis, pc.id), w);
  }

  /** Applied, the step leaves the job's own record and its holder as said. */
  lemma ApplySaysOwn(s: Sys, w: nat, f: Effect, t: Told)
    requires Works(s, w, f) && Domains(Apply(s, w, f)) && s.workers[w].id in s.place && SaysOwn(s, w, f, t)
    ensures Says(Apply(s, w, f), s.workers[w].id, t)
  {
    ApplyOwnRecord(s, w, f);
    ApplyOwnPlace(s, w, f);
  }

  lemma ApplySaysOther(s: Sys, w: nat, f: Effect, id: string, t: Told)
    requires Works(s, w, f) && Domains(Apply(s, w, f)) && id in s.place && id != s.workers[w].id && Says(s, id, t)
    ensures Says(Apply(s, w, f), id, t)
  {
    ApplyKeepsOthers(s, w, f, id);
    ApplyKeepsRecord(s, w, f, id);
  }

  lemma ApplySays(s: Sys, act: Action, f: Effect, id: string, t: Told)
    requires Enabled(s, act) && !ByClient(act) && Works(s, act.w, f) && Domains(Apply(s, act.w, f))
    requires id in s.place && Says(s, id, t)
    requires id == s.workers[act.w].id ==> SaysOwn(s, act.w, f, Hears(t, s.workers[act.w], act))
    ensures Says(Apply(s, act.w, f), id, HearsOf(t, s, act, id))
  {
    if id == s.workers[act.w].id {
      ApplySaysOwn(s, act.w, f, Hears(t, s.workers[act.w], act));
    } else {
      ApplySaysOther(s, act.w, f, id, t);
    }
  }

  lemma NextIsApply(s: Sys, act: Action)
    requires Enabled(s, act) && !ByClient(act)
    ensures Next(s, act) == Apply(s, act.w, Step(s.workers[act.w], act, Read(s.redis, s.workers[act.w].id)))
  {
  }

  lemma WorkerStepSays(s: Sys, act: Action, id: string, t: Told)
    requires Domains(s) && Holders(s) && Jobs(s) && Enabled(s, act) && !ByClient(act)
    requires Domains(Next(s, act)) && Says(s, id, t) && id in s.place
    ensures Says(Next(s, act), id, HearsOf(t, s, act, id))
  {
    var pc := s.workers[act.w];
    NextIsApply(s, act);
    WorkerWorks(s, act);
    if id == pc.id {
      OwnStepSays(s, act, t);
    }
    ApplySays(s, act, Step(pc, act, Read(s.redis, pc.id)), id, t);
  }

  lemma UnknownStepSays(s: Sys, act: Action, id: string, t: Told)
    requires Inv(s) && Enabled(s, act) && !ByClient(act) && id !in s.place
    ensures HearsOf(t, s, act, id) == t && id !in Next(s, act).place
  {
    BusyWorker(s, act.w);
    NextIsApply(s, act);
  }

  lemma ClientStepSays(s: Sys, act: Action, id: string, t: Told)
    requires Inv(s) && Enabled(s, act) && ByClient(act) && Domains(Next(s, act)) && Says(s, id, t)
    requires id !in s.place ==> t == Told(None, None)
    ensures Says(Next(s, act), id, t)
    ensures id !in Next(s, act).place ==> t == Told(None, None)
  {
    ClientSays(s, act, id, t);
    ClientKeepsPlaces(s, act);
  }

  lemma AnyStepSays(s: Sys, act: Action, id: string, t: Told)
    requires Inv(s) && Enabled(s, act) && Domains(Next(s, act)) && Says(s, id, t)
    requires id !in s.place ==> t == Told(None, None)
    ensures Says(Next(s, act), id, HearsOf(t, s, act, id))
    ensures id !in Next(s, act).place ==> HearsOf(t, s, act, id) == Told(None, None)
  {
    if ByClient(act) {
      ClientStepSays(s, act, id, t);
    } else if id in s.place {
      WorkerStepSays(s, act, id, t);
      WorkerKeepsPlaces(s, act);
    } else {
      UnknownStepSays(s, act, id, t);
    }
  }

  lemma WorkerKeepsPlaces(s: Sys, act: Action)
    requires Enabled(s, act) && !ByClient(act)
    ensures s.place.Keys <= Next(s, act).place.Keys
  {
    NextIsApply(s, act);
  }

  lemma ClientKeepsPlaces(s: Sys, act: Action)
    requires Domains(s) && Enabled(s, act) && ByClient(act)
    ensures s.place.Keys <= Next(s, act).place.Keys
  {
  }

  lemma {:induction false} RunSays(s: Sys, acts: seq<Action>, id: string, t: Told)
    requires Inv(s) && Runs(s, acts) && Says(s, id, t) && (id !in s.place ==> t == Told(None, None))
    ensures Inv(After(s, acts)) && Says(After(s, acts), id, ToldBy(s, acts, id, t))
    decreases |acts|
  {
    if acts != [] {
      StepInvariant(s, acts[0]);
      AnyStepSays(s, acts[0], id, t);
      RunSays(Next(s, acts[0]), acts[1..], id, HearsOf(t, s, acts[0], id));
    }
  }

  /** In every interleaving, a record whose status is COMPLETED holds the output of its tool and
      no error, one whose status is FAILED the last error of its tool or of its COMPLETED
      update, and any other neither. */
  lemma RecordTellsWhatHappened(n: nat, acts: seq<Action>, id: string)
    requires Runs(Start(n), acts) && id in After(Start(n), acts).place
    ensures
      var s, t := After(Start(n), acts), ToldBy(Start(n), acts, id, Told(None, None));
      && Domains(s)
      && var j := s.redis.records[id].job;
         && (j.status == Completed ==> t.output == Some(j.result) && j.error == "")
         && (j.status == Failed ==> t.failure == Some(j.error))
         && (j.status == Failed && id !in s.lost ==> j.result == "")
         && (j.status == Failed && id in s.lost ==> t.output == Some(j.result))
         && (j.status == Pending || j.status == Running ==> j.result == "" && j.error == "")
  {
    RunSays(Start(n), acts, id, Told(None, None));
    StatusOnlyMovesForward(n, acts, id);
    var s := After(Start(n), acts);
    PathMembers(s.writes[id], id in s.lost, id in s.skipped);
  }

  lemma PathMembers(h: seq<Status>, lost: bool, skipped: bool)
    requires h != []
    requires !lost ==> h <= Base(skipped) + [Completed] || h <= Base(skipped) + [Failed]
    requires lost ==> Base(skipped) + [Completed] <= h <= Base(skipped) + [Completed, Failed]
    ensures var last := h[|h| - 1];
      && (last == Completed ==> Completed in h && Failed !in h)
      && (last == Failed ==> Failed in h && (Completed in h <==> lost))
      && (last == Pending || last == Running ==> Completed !in h && Failed !in h)
  {
    var n := |Base(skipped)|;
    if lost {
      assert (Base(skipped) + [Completed])[n] == h[n] == Completed;
      assert |h| == n + 2 ==> h[n + 1] == Failed;
    } else {
      assert |h| == n + 1 || h <= Base(skipped);
    }
  }
}
