/** What left the worker for Telegram, against what the attempt log says: the
    message of an attempt is handed over at most once, and a message that may
    have been delivered leaves its attempt open in the log. */
module SendLog {
  import opened Results
  import opened QueueTable

  datatype Send = Send(job: nat, number: nat)

  /** issued: handed to the network. delivered: truly delivered to the customer.
      refused: answered as retryable, which the sender does only for sends that
      Telegram rejected, so that they are never delivered. */
  datatype Net = Net(issued: set<Send>, delivered: set<Send>, refused: set<Send>)

  function KeyOf(s: Send): AttemptKey {
    AttemptKey(s.job, s.number, Started)
  }

  ghost predicate NetOk(log: Log, net: Net) {
    && (forall s :: s in net.issued ==> KeyOf(s) in log)
    && net.delivered <= net.issued
    && net.refused <= net.issued
    && net.delivered !! net.refused
    && (forall s: Send :: KeyOf(s) in log && AttemptKey(s.job, s.number, FailedRetryable) in log ==> s in net.refused)
  }

  function DeliveredOf(net: Net, j: nat): set<Send> {
    set s | s in net.delivered && s.job == j
  }

  function IssuedOf(net: Net, j: nat): set<Send> {
    set s | s in net.issued && s.job == j
  }

  function KeysOf(sends: set<Send>): set<AttemptKey> {
    set s | s in sends :: KeyOf(s)
  }

  lemma {:induction false} KeysCount(sends: set<Send>)
    ensures |KeysOf(sends)| == |sends|
    decreases |sends|
  {
    if sends == {} {
    } else {
      var s :| s in sends;
      KeysCount(sends - {s});
      assert KeysOf(sends) == KeysOf(sends - {s}) + {KeyOf(s)};
    }
  }

  /** Every delivered message leaves its attempt open. */
  lemma DeliveredIsOpen(log: Log, net: Net, j: nat)
    requires NetOk(log, net)
    ensures |DeliveredOf(net, j)| <= |Opened(log, j)|
  {
    var sends := DeliveredOf(net, j);
    forall s | s in sends
      ensures KeyOf(s) in Opened(log, j)
    {
      assert s in net.issued && s !in net.refused;
    }
    KeysCount(sends);
    SubsetSize(KeysOf(sends), Opened(log, j));
  }

  /** At most one delivery, plus one for each manual retry; and nothing has been
      delivered beyond the manual retries while a job can be sent again. */
  lemma DeliveredAtMostOnce(q: Queue, net: Net, j: nat)
    requires QueueOk(q) && NetOk(q.attempts, net)
    requires j < |q.jobs|
    ensures |DeliveredOf(net, j)| <= 1 + |Retries(q.attempts, j)|
    ensures Restartable(q.jobs[j]) ==> |DeliveredOf(net, j)| <= |Retries(q.attempts, j)|
  {
    assert JobOk(q.jobs[j], q.attempts, j);
    DeliveredIsOpen(q.attempts, net, j);
  }

  /** All sends of a job stay within its initial budget plus its manual retries. */
  lemma SendsWithinBudget(q: Queue, net: Net, j: nat)
    requires QueueOk(q) && NetOk(q.attempts, net)
    requires j < |q.jobs|
    ensures |IssuedOf(net, j)| <= q.jobs[j].attempts <= q.jobs[j].granted + |Retries(q.attempts, j)|
  {
    assert JobOk(q.jobs[j], q.attempts, j);
    var sends := IssuedOf(net, j);
    forall s | s in sends
      ensures 1 <= s.number <= q.jobs[j].attempts
    {
      assert KeyOf(s) in q.attempts;
    }
    NumbersCount(sends, j, q.jobs[j].attempts);
  }

  lemma {:induction false} NumbersCount(sends: set<Send>, j: nat, limit: nat)
    requires forall s :: s in sends ==> s.job == j && 1 <= s.number <= limit
    ensures |sends| <= limit
    decreases limit
  {
    if limit == 0 {
      assert sends == {};
    } else {
      var last := Send(j, limit);
      NumbersCount(sends - {last}, j, limit - 1);
      assert |sends| <= |sends - {last}| + 1;
    }
  }

  /** An automatic send starts only when every earlier send of the job, if no
      manual retry happened, was answered as retryable: nothing was delivered. */
  lemma BeginFindsNothingDelivered(q: Queue, net: Net, j: nat, worker: string)
    requires QueueOk(q) && NetOk(q.attempts, net)
    requires BeginSend(q, j, worker).Ok?
    requires Retries(q.attempts, j) == {}
    ensures DeliveredOf(net, j) == {}
    ensures forall n: nat :: KeyOf(Send(j, n)) in q.attempts ==> AttemptKey(j, n, FailedRetryable) in q.attempts
  {
    assert JobOk(q.jobs[j], q.attempts, j);
    DeliveredIsOpen(q.attempts, net, j);
    assert Opened(q.attempts, j) == {};
    forall n: nat | KeyOf(Send(j, n)) in q.attempts
      ensures AttemptKey(j, n, FailedRetryable) in q.attempts
    {
      assert KeyOf(Send(j, n)) !in Opened(q.attempts, j);
    }
  }

  /** The log grows by rows that start no send and call none retryable. */
  ghost predicate HarmlessRows(log: Log, log': Log) {
    && log.Keys <= log'.Keys
    && (forall k :: k in log' && k !in log ==> k.status != Started && k.status != FailedRetryable)
  }

  lemma HarmlessKeepsNet(log: Log, log': Log, net: Net)
    requires NetOk(log, net) && HarmlessRows(log, log')
    ensures NetOk(log', net)
  {
    forall s: Send | KeyOf(s) in log' && AttemptKey(s.job, s.number, FailedRetryable) in log'
      ensures s in net.refused
    {
      assert KeyOf(s) in log && AttemptKey(s.job, s.number, FailedRetryable) in log;
    }
  }

  /** A send starts: its row is new, and no row calls it retryable yet. */
  lemma StartKeepsNet(log: Log, log': Log, net: Net, s: Send)
    requires NetOk(log, net)
    requires KeyOf(s) !in log && AttemptKey(s.job, s.number, FailedRetryable) !in log
    requires log'.Keys == log.Keys + {KeyOf(s)}
    ensures NetOk(log', net)
    ensures s !in net.issued
  {
    forall r: Send | KeyOf(r) in log' && AttemptKey(r.job, r.number, FailedRetryable) in log'
      ensures r in net.refused
    {
      assert AttemptKey(r.job, r.number, FailedRetryable) in log;
      assert r != s;
    }
  }

  /** A send that was refused is finalised as retryable, or an attempt that never
      started a send is. */
  lemma RetryableKeepsNet(log: Log, log': Log, net: Net, s: Send)
    requires NetOk(log, net)
    requires log'.Keys == log.Keys + {AttemptKey(s.job, s.number, FailedRetryable)}
    requires KeyOf(s) in log ==> s in net.refused
    ensures NetOk(log', net)
  {
    forall r: Send | KeyOf(r) in log' && AttemptKey(r.job, r.number, FailedRetryable) in log'
      ensures r in net.refused
    {
      assert KeyOf(r) in log;
      if r != s {
        assert AttemptKey(r.job, r.number, FailedRetryable) in log;
      }
    }
  }
}
