/** The extraction benchmark's clients: they share a queue of prompts ended by one sentinel each. */
module ClientQueue {

  type Prompt = seq<int>

  datatype Job = Job(idx: nat, tokens: Prompt)
  datatype Item = Work(job: Job) | Sentinel

  /** Where a client is: about to `get`, at work on a job, or past its loop. */
  datatype Client = Ready | Busy(job: Job) | Done

  /** `unfinished` counts the items put into the queue and not yet marked done. */
  datatype State = State(queue: seq<Item>, unfinished: int, clients: seq<Client>, results: seq<Job>)

  /** The atomic parts of a client's loop: between two awaits. */
  datatype Event = Take(client: nat) | Finish(client: nat)

  function Jobs(prompts: seq<Prompt>): (js: seq<Job>)
    ensures |js| == |prompts|
    ensures forall i :: 0 <= i < |js| ==> js[i] == Job(i, prompts[i])
  {
    seq(|prompts|, i requires 0 <= i < |prompts| => Job(i, prompts[i]))
  }

  function Queue(jobs: seq<Job>, sentinels: nat): (q: seq<Item>)
    ensures |q| == |jobs| + sentinels
    ensures forall i :: 0 <= i < |jobs| ==> q[i] == Work(jobs[i])
    ensures forall i :: |jobs| <= i < |q| ==> q[i] == Sentinel
  {
    seq(|jobs| + sentinels, i requires 0 <= i < |jobs| + sentinels => if i < |jobs| then Work(jobs[i]) else Sentinel)
  }

  function Start(prompts: seq<Prompt>, n: nat): State {
    State(Queue(Jobs(prompts), n), |prompts| + n, seq(n, _ => Ready), [])
  }

  predicate Enabled(s: State, e: Event) {
    && e.client < |s.clients|
    && match e
       case Take(c) => s.clients[c].Ready? && s.queue != []
       case Finish(c) => s.clients[c].Busy?
  }

  function Next(s: State, e: Event): State
    requires Enabled(s, e)
  {
    match e
    case Take(c) =>
      if s.queue[0].Sentinel? then
        s.(queue := s.queue[1..], unfinished := s.unfinished - 1, clients := s.clients[c := Done])
      else
        s.(queue := s.queue[1..], clients := s.clients[c := Busy(s.queue[0].job)])
    case Finish(c) =>
      s.(results := s.results + [s.clients[c].job], unfinished := s.unfinished - 1, clients := s.clients[c := Ready])
  }

  /** The states a run passes through, one for each event. */
  ghost predicate Reaches(s: State, events: seq<Event>, s': State)
    decreases |events|
  {
    if events == [] then s == s'
    else Enabled(s, events[0]) && Reaches(Next(s, events[0]), events[1..], s')
  }

  // ----- counting

  function Alive(c: Client): nat {
    if c.Done? then 0 else 1
  }

  function Held(c: Client): multiset<Job> {
    if c.Busy? then multiset{c.job} else multiset{}
  }

  function Running(clients: seq<Client>): nat {
    if clients == [] then 0 else Alive(clients[0]) + Running(clients[1..])
  }

  function InFlight(clients: seq<Client>): multiset<Job> {
    if clients == [] then multiset{} else Held(clients[0]) + InFlight(clients[1..])
  }

  lemma {:induction false} Update(clients: seq<Client>, c: nat, x: Client)
    requires c < |clients|
    ensures Running(clients[c := x]) + Alive(clients[c]) == Running(clients) + Alive(x)
    ensures InFlight(clients[c := x]) + Held(clients[c]) == InFlight(clients) + Held(x)
  {
    var out := clients[c := x];
    if c == 0 {
      assert out[1..] == clients[1..];
      Swap(Held(x), InFlight(clients[1..]), Held(clients[0]));
    } else {
      assert out[1..] == clients[1..][c - 1 := x];
      Update(clients[1..], c - 1, x);
      Regroup(Held(clients[0]), InFlight(out[1..]), Held(clients[c]), InFlight(clients[1..]), Held(x));
    }
  }

  lemma Swap(x: multiset<Job>, rest: multiset<Job>, y: multiset<Job>)
    ensures x + rest + y == y + rest + x
  {
  }

  lemma Regroup(a: multiset<Job>, p: multiset<Job>, q: multiset<Job>, r: multiset<Job>, s: multiset<Job>)
    requires p + q == r + s
    ensures a + p + q == a + r + s
  {
    assert a + p + q == a + (p + q);
  }

  lemma Picks(clients: seq<Client>, c: nat, job: Job)
    requires c < |clients| && clients[c].Ready?
    ensures Running(clients[c := Busy(job)]) == Running(clients)
    ensures InFlight(clients[c := Busy(job)]) == InFlight(clients) + multiset{job}
    ensures |InFlight(clients[c := Busy(job)])| == |InFlight(clients)| + 1
  {
    Update(clients, c, Busy(job));
    assert InFlight(clients[c := Busy(job)]) == InFlight(clients[c := Busy(job)]) + multiset{};
  }

  lemma Stops(clients: seq<Client>, c: nat)
    requires c < |clients| && clients[c].Ready?
    ensures Running(clients[c := Done]) == Running(clients) - 1
    ensures InFlight(clients[c := Done]) == InFlight(clients)
  {
    Update(clients, c, Done);
    assert InFlight(clients[c := Done]) == InFlight(clients[c := Done]) + multiset{};
    assert InFlight(clients) == InFlight(clients) + multiset{};
  }

  lemma Completes(clients: seq<Client>, c: nat)
    requires c < |clients| && clients[c].Busy?
    ensures Running(clients[c := Ready]) == Running(clients)
    ensures InFlight(clients[c := Ready]) + multiset{clients[c].job} == InFlight(clients)
    ensures |InFlight(clients[c := Ready])| == |InFlight(clients)| - 1
  {
    Update(clients, c, Ready);
    assert InFlight(clients) == InFlight(clients) + multiset{};
  }

  lemma {:induction false} InFlightRuns(clients: seq<Client>)
    ensures |InFlight(clients)| <= Running(clients) <= |clients|
  {
    if clients != [] {
      InFlightRuns(clients[1..]);
    }
  }

  lemma {:induction false} RunningAt(clients: seq<Client>, c: nat)
    requires c < |clients| && !clients[c].Done?
    ensures Running(clients) > 0
  {
    if c > 0 {
      RunningAt(clients[1..], c - 1);
    }
  }

  lemma {:induction false} NoneRunning(clients: seq<Client>)
    requires forall c :: 0 <= c < |clients| ==> clients[c].Done?
    ensures Running(clients) == 0
  {
    if clients != [] {
      NoneRunning(clients[1..]);
    }
  }

  lemma {:induction false} ReadyCounts(n: nat)
    ensures Running(seq(n, _ => Ready)) == n && InFlight(seq(n, _ => Ready)) == multiset{}
  {
    if n > 0 {
      ReadyCounts(n - 1);
      assert seq(n, _ => Ready)[1..] == seq(n - 1, _ => Ready);
    }
  }

  // ----- the invariant

  /** Jobs taken from the queue so far. */
  function Taken(jobs: seq<Job>, s: State): int {
    |jobs| + Running(s.clients) - |s.queue|
  }

  ghost predicate Inv(jobs: seq<Job>, n: nat, s: State) {
    var k := Taken(jobs, s);
    && |s.clients| == n
    && 0 <= k <= |jobs|
    && s.queue == Queue(jobs[k..], Running(s.clients))
    && (k < |jobs| ==> Running(s.clients) == n)
    && multiset(jobs[..k]) == multiset(s.results) + InFlight(s.clients)
    && s.unfinished == |s.queue| + |InFlight(s.clients)|
  }

  lemma Starts(prompts: seq<Prompt>, n: nat)
    ensures Inv(Jobs(prompts), n, Start(prompts, n))
  {
    ReadyCounts(n);
    var jobs := Jobs(prompts);
    assert jobs[0..] == jobs && jobs[..0] == [];
  }

  lemma QueueTail(jobs: seq<Job>, k: nat, m: nat)
    requires k <= |jobs| && Queue(jobs[k..], m) != []
    ensures var q := Queue(jobs[k..], m);
            if k < |jobs| then q[0] == Work(jobs[k]) && q[1..] == Queue(jobs[k + 1..], m)
            else m > 0 && q[0] == Sentinel && q[1..] == Queue(jobs[k..], m - 1)
  {
    var q := Queue(jobs[k..], m);
    if k < |jobs| {
      assert q[1..] == Queue(jobs[k + 1..], m);
    } else {
      assert q[1..] == Queue(jobs[k..], m - 1);
    }
  }

  lemma TakeJobKeeps(jobs: seq<Job>, n: nat, s: State, c: nat)
    requires Inv(jobs, n, s) && Enabled(s, Take(c)) && Taken(jobs, s) < |jobs|
    ensures s.queue[0].Work? && Inv(jobs, n, Next(s, Take(c)))
  {
    var k := Taken(jobs, s);
    QueueTail(jobs, k, Running(s.clients));
    Picks(s.clients, c, jobs[k]);
    assert jobs[..k + 1] == jobs[..k] + [jobs[k]];
  }

  lemma TakeSentinelKeeps(jobs: seq<Job>, n: nat, s: State, c: nat)
    requires Inv(jobs, n, s) && Enabled(s, Take(c)) && Taken(jobs, s) == |jobs|
    ensures s.queue[0].Sentinel? && Inv(jobs, n, Next(s, Take(c)))
  {
    QueueTail(jobs, |jobs|, Running(s.clients));
    Stops(s.clients, c);
  }

  lemma FinishKeeps(jobs: seq<Job>, n: nat, s: State, c: nat)
    requires Inv(jobs, n, s) && Enabled(s, Finish(c))
    ensures Inv(jobs, n, Next(s, Finish(c)))
  {
    Completes(s.clients, c);
  }

  /** What is left to do: two events for each queued job, one for each job in flight and for each
      client still to stop. */
  function Left(jobs: seq<Job>, s: State): int {
    2 * (|jobs| - Taken(jobs, s)) + Running(s.clients) + |InFlight(s.clients)|
  }

  lemma StepKeeps(jobs: seq<Job>, n: nat, s: State, e: Event)
    requires Inv(jobs, n, s) && Enabled(s, e)
    ensures Inv(jobs, n, Next(s, e))
    ensures Left(jobs, Next(s, e)) == Left(jobs, s) - 1
  {
    match e
    case Take(c) =>
      if Taken(jobs, s) < |jobs| {
        TakeJobKeeps(jobs, n, s, c);
        Picks(s.clients, c, s.queue[0].job);
      } else {
        TakeSentinelKeeps(jobs, n, s, c);
        Stops(s.clients, c);
      }
    case Finish(c) =>
      FinishKeeps(jobs, n, s, c);
      Completes(s.clients, c);
  }

  lemma {:induction false} RunKeeps(jobs: seq<Job>, n: nat, s: State, events: seq<Event>, s': State)
    requires Inv(jobs, n, s) && Reaches(s, events, s')
    ensures Inv(jobs, n, s') && Left(jobs, s') == Left(jobs, s) - |events|
    decreases |events|
  {
    if events != [] {
      StepKeeps(jobs, n, s, events[0]);
      RunKeeps(jobs, n, Next(s, events[0]), events[1..], s');
    }
  }

  // ----- every interleaving

  ghost predicate AllDone(s: State) {
    forall c :: 0 <= c < |s.clients| ==> s.clients[c].Done?
  }

  lemma LeftAtStart(prompts: seq<Prompt>, n: nat)
    ensures Left(Jobs(prompts), Start(prompts, n)) == 2 * |prompts| + n
  {
    ReadyCounts(n);
  }

  /** The jobs waiting in the queue. */
  function Queued(q: seq<Item>): multiset<Job> {
    if q == [] then multiset{}
    else Queued(q[1..]) + if q[0].Work? then multiset{q[0].job} else multiset{}
  }

  function SentinelsIn(q: seq<Item>): nat {
    if q == [] then 0 else SentinelsIn(q[1..]) + if q[0].Sentinel? then 1 else 0
  }

  lemma {:induction false} QueueCounts(jobs: seq<Job>, k: nat, m: nat)
    requires k <= |jobs|
    ensures Queued(Queue(jobs[k..], m)) == multiset(jobs[k..])
    ensures SentinelsIn(Queue(jobs[k..], m)) == m
    decreases |jobs| - k, m
  {
    if k < |jobs| {
      QueueCounts(jobs, k + 1, m);
      WorkCounts(jobs, k, m);
    } else if m > 0 {
      QueueCounts(jobs, k, m - 1);
      QueueTail(jobs, k, m);
    }
  }

  lemma WorkCounts(jobs: seq<Job>, k: nat, m: nat)
    requires k < |jobs|
    requires Queued(Queue(jobs[k + 1..], m)) == multiset(jobs[k + 1..]) && SentinelsIn(Queue(jobs[k + 1..], m)) == m
    ensures Queued(Queue(jobs[k..], m)) == multiset(jobs[k..]) && SentinelsIn(Queue(jobs[k..], m)) == m
  {
    QueueTail(jobs, k, m);
    assert jobs[k..] == [jobs[k]] + jobs[k + 1..];
  }

  lemma ReachedInv(prompts: seq<Prompt>, n: nat, events: seq<Event>, s: State)
    requires Reaches(Start(prompts, n), events, s)
    ensures Inv(Jobs(prompts), n, s) && Left(Jobs(prompts), s) == 2 * |prompts| + n - |events|
  {
    Starts(prompts, n);
    RunKeeps(Jobs(prompts), n, Start(prompts, n), events, s);
    LeftAtStart(prompts, n);
  }

  /** In every state of every interleaving: the running clients are as many as the sentinels left, each
      job is exactly one of queued, in flight and in the results, and `task_done` is called once for
      each item that is neither queued nor in flight. */
  lemma Conserved(prompts: seq<Prompt>, n: nat, events: seq<Event>, s: State)
    requires Reaches(Start(prompts, n), events, s)
    ensures Running(s.clients) == SentinelsIn(s.queue)
    ensures multiset(Jobs(prompts)) == Queued(s.queue) + InFlight(s.clients) + multiset(s.results)
    ensures s.unfinished == |s.queue| + |InFlight(s.clients)|
  {
    ReachedInv(prompts, n, events, s);
    InvCounts(Jobs(prompts), n, s);
  }

  lemma InvCounts(jobs: seq<Job>, n: nat, s: State)
    requires Inv(jobs, n, s)
    ensures Running(s.clients) == SentinelsIn(s.queue)
    ensures multiset(jobs) == Queued(s.queue) + InFlight(s.clients) + multiset(s.results)
  {
    var k := Taken(jobs, s);
    QueueCounts(jobs, k, Running(s.clients));
    assert jobs == jobs[..k] + jobs[k..];
    Gathered(multiset(jobs[..k]), multiset(jobs[k..]), InFlight(s.clients), multiset(s.results));
  }

  lemma Gathered(taken: multiset<Job>, left: multiset<Job>, flying: multiset<Job>, results: multiset<Job>)
    requires taken == results + flying
    ensures taken + left == left + flying + results
  {
  }

  /** No client ever waits on an empty queue. */
  lemma NeverWaits(prompts: seq<Prompt>, n: nat, events: seq<Event>, s: State, c: nat)
    requires Reaches(Start(prompts, n), events, s) && c < n
    ensures |s.clients| == n && (s.clients[c].Ready? ==> s.queue != [])
  {
    ReachedInv(prompts, n, events, s);
    if s.clients[c].Ready? {
      RunningAt(s.clients, c);
    }
  }

  /** No interleaving gets stuck: some event is possible exactly while some client has not stopped. */
  lemma NoDeadlock(prompts: seq<Prompt>, n: nat, events: seq<Event>, s: State)
    requires Reaches(Start(prompts, n), events, s)
    ensures (exists e :: Enabled(s, e)) <==> !AllDone(s)
  {
    ReachedInv(prompts, n, events, s);
    if !AllDone(s) {
      var c :| 0 <= c < n && !s.clients[c].Done?;
      NeverWaits(prompts, n, events, s, c);
      assert Enabled(s, if s.clients[c].Busy? then Finish(c) else Take(c));
    }
  }

  /** Every interleaving stops after the same number of events: with at least one client, all have
      stopped exactly after two events for each prompt and one for each client. */
  lemma StopsAfter(prompts: seq<Prompt>, n: nat, events: seq<Event>, s: State)
    requires n > 0 && Reaches(Start(prompts, n), events, s)
    ensures |events| <= 2 * |prompts| + n
    ensures AllDone(s) <==> |events| == 2 * |prompts| + n
  {
    ReachedInv(prompts, n, events, s);
    InFlightRuns(s.clients);
    if AllDone(s) {
      NoneRunning(s.clients);
    } else {
      var c :| 0 <= c < n && !s.clients[c].Done?;
      RunningAt(s.clients, c);
    }
  }

  /** When all have stopped, every prompt is in the results once, the queue is empty and every item
      has been marked done. */
  lemma DeliversExactlyOnce(prompts: seq<Prompt>, n: nat, events: seq<Event>, s: State)
    requires n > 0 && Reaches(Start(prompts, n), events, s) && AllDone(s)
    ensures multiset(s.results) == multiset(Jobs(prompts))
    ensures |s.results| == |prompts| && s.queue == [] && s.unfinished == 0
  {
    var jobs := Jobs(prompts);
    ReachedInv(prompts, n, events, s);
    NoneRunning(s.clients);
    InFlightRuns(s.clients);
    assert jobs[..|jobs|] == jobs;
    assert |multiset(s.results)| == |multiset(jobs)|;
  }

  lemma JobsDistinct(prompts: seq<Prompt>, x: Job)
    ensures multiset(Jobs(prompts))[x] <= 1
  {
    var jobs := Jobs(prompts);
    if x in jobs {
      var i := x.idx;
      assert jobs == jobs[..i] + ([x] + jobs[i + 1..]);
      assert x !in jobs[..i] && x !in jobs[i + 1..];
    }
  }

  lemma TwiceCounts(results: seq<Job>, i: nat, j: nat)
    requires i < j < |results| && results[i] == results[j]
    ensures multiset(results)[results[i]] >= 2
  {
    assert results == results[..j] + ([results[j]] + results[j + 1..]);
    assert results[..j][i] == results[i];
  }

  /** Hence no two results are for the same prompt. */
  lemma ResultsDistinct(prompts: seq<Prompt>, results: seq<Job>, i: nat, j: nat)
    requires multiset(results) == multiset(Jobs(prompts)) && i < j < |results|
    ensures results[i].idx != results[j].idx
  {
    assert results[i] in multiset(results) && results[j] in multiset(results);
    assert results[i] in Jobs(prompts) && results[j] in Jobs(prompts);
    if results[i] == results[j] {
      TwiceCounts(results, i, j);
      JobsDistinct(prompts, results[i]);
    }
  }

  // ----- the shared objects and the code between two awaits

  class Extraction {
    var queue: seq<Item>
    var unfinished: int
    var clients: seq<Client>
    var results: seq<Job>

    function Model(): State
      reads this
    {
      State(queue, unfinished, clients, results)
    }

    /** Fills the queue: every prompt with its index, then one sentinel for each client. */
    constructor (prompts: seq<Prompt>, n: nat)
      ensures Model() == Start(prompts, n)
    {
      var q: seq<Item> := [];
      for idx := 0 to |prompts|
        invariant q == Queue(Jobs(prompts)[..idx], 0)
      {
        q := q + [Work(Job(idx, prompts[idx]))];
      }
      assert Jobs(prompts)[..|prompts|] == Jobs(prompts);
      for k := 0 to n
        invariant q == Queue(Jobs(prompts), k)
      {
        q := q + [Sentinel];
      }
      queue, unfinished := q, |q|;
      clients, results := seq(n, _ => Ready), [];
    }

    /** From `get` to the next await or the end of the loop. */
    method TakeStep(c: nat)
      requires Enabled(Model(), Take(c))
      modifies this
      ensures Model() == Next(old(Model()), Take(c))
    {
      var item := queue[0];
      queue := queue[1..];
      if item == Sentinel {
        unfinished := unfinished - 1;
        clients := clients[c := Done];
      } else {
        clients := clients[c := Busy(item.job)];
      }
    }

    /** From the end of the work on a job to the next `get`. */
    method FinishStep(c: nat)
      requires Enabled(Model(), Finish(c))
      modifies this
      ensures Model() == Next(old(Model()), Finish(c))
    {
      results := results + [clients[c].job];
      unfinished := unfinished - 1;
      clients := clients[c := Ready];
    }
  }

  /** The thread pool cannot be made for no clients: the run raises before any client starts. */
  method Launch(prompts: seq<Prompt>, numClients: int) returns (e: Extraction?)
    ensures e == null <==> numClients <= 0
    ensures e != null ==> fresh(e) && e.Model() == Start(prompts, numClients)
  {
    if numClients <= 0 {
      return null;
    }
    e := new Extraction(prompts, numClients);
  }
}
