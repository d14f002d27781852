/** `wait_for_build`: poll the build service until the build reports a terminal
    status or the deadline of `60 * timeout` seconds passes.

    The wall clock and the client are parameters: `elapsed[k]` is what
    `time.time() - start_time` reads when the loop condition is checked for the
    k-th time, and `replies[k]` is what the k-th `get_build` call gives back. */
module StatusPoller {
  import opened Wrappers

  /** A member of the service's `BuildStatus` enumeration, known by its name. */
  datatype BuildStatus = BuildStatus(name: string)

  const SUCCESSFUL := BuildStatus("SUCCESSFUL")
  const IN_PROGRESS := BuildStatus("IN_PROGRESS")
  const REMOTE_BUILD_INITIALIZING := BuildStatus("REMOTE_BUILD_INITIALIZING")

  /** A snapshot of a build as the service reports it. */
  datatype Build = Build(buildId: string, status: BuildStatus, metrics: string)

  /** What one `get_build` call does: return a snapshot, or raise. A `TimeoutError`
      raised by the client is told apart because the caller handles it as a timeout. */
  datatype Reply = Fetched(build: Build) | QueryError(message: string, isTimeoutError: bool)

  /** How `wait_for_build` ends: it returns the successful or the failed snapshot,
      raises its own `TimeoutError`, or re-raises what the client raised. */
  datatype Outcome = Succeeded(build: Build) | Failed(build: Build) | TimedOut
                   | Raised(message: string, isTimeoutError: bool)

  /** The two statuses that keep the loop polling. */
  predicate InProgress(s: BuildStatus)
  {
    s == IN_PROGRESS || s == REMOTE_BUILD_INITIALIZING
  }

  /** A reply after which the loop goes round again. */
  predicate Pending(r: Reply)
  {
    r.Fetched? && InProgress(r.build.status)
  }

  /** The deadline in seconds. */
  function Limit(timeout: int): int
  {
    60 * timeout
  }

  /** The clock passes the deadline at its last reading, and there is a reply for
      every reading before that one: the loop cannot go on past the readings. */
  predicate Environment(limit: int, elapsed: seq<int>, replies: seq<Reply>)
  {
    |elapsed| >= 1 && elapsed[|elapsed| - 1] >= limit && |replies| >= |elapsed| - 1
  }

  /** The k-th pass through the loop starts inside the deadline and ends with the
      loop going round again. */
  predicate Continues(limit: int, elapsed: seq<int>, replies: seq<Reply>, k: nat)
    requires k < |elapsed|
  {
    elapsed[k] < limit && k < |replies| && Pending(replies[k])
  }

  /** The loop stops at pass `j`: every earlier pass went round again, pass `j` does not. */
  predicate StopsAt(limit: int, elapsed: seq<int>, replies: seq<Reply>, j: nat)
  {
    && j < |elapsed|
    && !Continues(limit, elapsed, replies, j)
    && forall k :: 0 <= k < j ==> Continues(limit, elapsed, replies, k)
  }

  /** The first pass, from `from` on, that does not go round again. */
  function FirstStop(limit: int, elapsed: seq<int>, replies: seq<Reply>, from: nat): (j: nat)
    requires Environment(limit, elapsed, replies) && from < |elapsed|
    ensures from <= j < |elapsed|
    ensures !Continues(limit, elapsed, replies, j)
    ensures forall k :: from <= k < j ==> Continues(limit, elapsed, replies, k)
    decreases |elapsed| - from
  {
    if !Continues(limit, elapsed, replies, from) then from
    else FirstStop(limit, elapsed, replies, from + 1)
  }

  /** The pass at which the loop stops. */
  function Stop(limit: int, elapsed: seq<int>, replies: seq<Reply>): nat
    requires Environment(limit, elapsed, replies)
  {
    FirstStop(limit, elapsed, replies, 0)
  }

  /** How the poll ends, read off the pass at which it stops. */
  function Poll(limit: int, elapsed: seq<int>, replies: seq<Reply>): Outcome
    requires Environment(limit, elapsed, replies)
  {
    var j := Stop(limit, elapsed, replies);
    if elapsed[j] >= limit then TimedOut
    else match replies[j]
      case QueryError(message, isTimeoutError) => Raised(message, isTimeoutError)
      case Fetched(b) => if b.status == SUCCESSFUL then Succeeded(b) else Failed(b)
  }

  /** How many snapshots were fetched: one per pass that went round again, and one
      more when the stopping pass fetched a terminal snapshot. */
  function Polled(limit: int, elapsed: seq<int>, replies: seq<Reply>): nat
    requires Environment(limit, elapsed, replies)
  {
    var j := Stop(limit, elapsed, replies);
    if elapsed[j] < limit && replies[j].Fetched? then j + 1 else j
  }

  /** The status names of the snapshots among `rs`, in order. */
  function StatusNames(rs: seq<Reply>): seq<string>
  {
    if rs == [] then []
    else (if rs[0].Fetched? then [rs[0].build.status.name] else []) + StatusNames(rs[1..])
  }

  /** The status lines the loop prints: a name whenever it differs from the one
      before it, starting from no status at all. */
  function ChangeLog(names: seq<string>): seq<string>
  {
    if names == [] then []
    else
      var log := ChangeLog(names[..|names| - 1]);
      if |names| >= 2 && names[|names| - 1] == names[|names| - 2] then log
      else log + [names[|names| - 1]]
  }

  /** Number of maximal runs of equal neighbours in `names`, counted from the front. */
  function Runs(names: seq<string>): nat
  {
    if |names| <= 1 then |names|
    else (if names[0] != names[1] then 1 else 0) + Runs(names[1..])
  }

  /** The log of the snapshots the poll fetched. */
  function PollLog(limit: int, elapsed: seq<int>, replies: seq<Reply>): seq<string>
    requires Environment(limit, elapsed, replies)
  {
    ChangeLog(StatusNames(replies[..Polled(limit, elapsed, replies)]))
  }

  // ---------------------------------------------------------------------------
  // The loop

  lemma {:induction false} StatusNamesSnoc(rs: seq<Reply>, r: Reply)
    ensures StatusNames(rs + [r]) == StatusNames(rs) + (if r.Fetched? then [r.build.status.name] else [])
  {
    if rs != [] {
      assert (rs + [r])[1..] == rs[1..] + [r];
      StatusNamesSnoc(rs[1..], r);
    } else {
      assert [] + [r] == [r];
    }
  }

  lemma ChangeLogSnoc(names: seq<string>, x: string)
    ensures ChangeLog(names + [x])
         == if names != [] && names[|names| - 1] == x then ChangeLog(names) else ChangeLog(names) + [x]
  {
    var extended := names + [x];
    assert extended[..|extended| - 1] == names;
    assert extended[|extended| - 1] == x;
    if names != [] && names[|names| - 1] == x {
      assert extended[|extended| - 2] == x;
      assert ChangeLog(extended) == ChangeLog(names);
    } else {
      assert !(|extended| >= 2 && extended[|extended| - 2] == x);
      assert ChangeLog(extended) == ChangeLog(names) + [x];
    }
  }

  /** The stopping pass is the one and only pass at which the loop stops. */
  lemma StopUnique(limit: int, elapsed: seq<int>, replies: seq<Reply>, j: nat)
    requires Environment(limit, elapsed, replies)
    ensures StopsAt(limit, elapsed, replies, j) <==> j == Stop(limit, elapsed, replies)
  {
  }

  /** One more fetched snapshot adds its name to the names. */
  lemma LogStep(replies: seq<Reply>, i: nat)
    requires i < |replies| && replies[i].Fetched?
    ensures StatusNames(replies[..i + 1]) == StatusNames(replies[..i]) + [replies[i].build.status.name]
  {
    assert replies[..i + 1] == replies[..i] + [replies[i]];
    StatusNamesSnoc(replies[..i], replies[i]);
  }

  /** What the poll gives when it stops at pass `i`. */
  lemma EndsAt(limit: int, elapsed: seq<int>, replies: seq<Reply>, i: nat)
    requires Environment(limit, elapsed, replies) && StopsAt(limit, elapsed, replies, i)
    ensures elapsed[i] >= limit ==>
      Poll(limit, elapsed, replies) == TimedOut && Polled(limit, elapsed, replies) == i
    ensures elapsed[i] < limit && replies[i].QueryError? ==>
      Poll(limit, elapsed, replies) == Raised(replies[i].message, replies[i].isTimeoutError)
      && Polled(limit, elapsed, replies) == i
    ensures elapsed[i] < limit && replies[i].Fetched? && replies[i].build.status == SUCCESSFUL ==>
      Poll(limit, elapsed, replies) == Succeeded(replies[i].build) && Polled(limit, elapsed, replies) == i + 1
    ensures elapsed[i] < limit && replies[i].Fetched? && replies[i].build.status != SUCCESSFUL ==>
      Poll(limit, elapsed, replies) == Failed(replies[i].build) && Polled(limit, elapsed, replies) == i + 1
  {
    StopUnique(limit, elapsed, replies, i);
  }

  /** `wait_for_build`: sleep, fetch, print the status if it changed, stop on
      SUCCESSFUL or on any status other than the two in-progress ones; raise
      `TimeoutError` once the deadline has passed; re-raise what the client raises.
      `replies[k]` is the answer to the k-th `get_build(buildId)` call, so the id
      enters only through the replies. */
  method WaitForBuild(buildId: string, timeout: int, elapsed: seq<int>, replies: seq<Reply>)
    returns (outcome: Outcome, log: seq<string>)
    requires Environment(Limit(timeout), elapsed, replies)
    ensures outcome == Poll(Limit(timeout), elapsed, replies)
    ensures log == PollLog(Limit(timeout), elapsed, replies)
  {
    var limit := Limit(timeout);
    var currentStatus: Option<string> := None;
    ghost var names: seq<string> := [];
    log := [];
    var i := 0;
    while elapsed[i] < limit
      invariant 0 <= i < |elapsed|
      invariant forall k :: 0 <= k < i ==> Continues(limit, elapsed, replies, k)
      invariant names == StatusNames(replies[..i])
      invariant currentStatus == if names == [] then None else Some(names[|names| - 1])
      invariant log == ChangeLog(names)
      decreases |elapsed| - i
    {
      var reply := replies[i];
      if reply.QueryError? {
        EndsAt(limit, elapsed, replies, i);
        outcome := Raised(reply.message, reply.isTimeoutError);
        return;
      }
      var buildObject := reply.build;
      var verbalBuildStatus := buildObject.status.name;
      LogStep(replies, i);
      ChangeLogSnoc(names, verbalBuildStatus);
      names := names + [verbalBuildStatus];
      if currentStatus != Some(verbalBuildStatus) {
        log := log + [verbalBuildStatus];
        currentStatus := Some(verbalBuildStatus);
      }
      if buildObject.status == SUCCESSFUL {
        EndsAt(limit, elapsed, replies, i);
        outcome := Succeeded(buildObject);
        return;
      } else if !(buildObject.status in [IN_PROGRESS, REMOTE_BUILD_INITIALIZING]) {
        EndsAt(limit, elapsed, replies, i);
        outcome := Failed(buildObject);
        return;
      }
      i := i + 1;
    }
    EndsAt(limit, elapsed, replies, i);
    outcome := TimedOut;
  }

  // ---------------------------------------------------------------------------
  // What the poll promises

  /** The poll succeeds with `b` exactly when it stops at a pass inside the
      deadline that fetched `b` with status SUCCESSFUL. */
  lemma SucceedsIff(limit: int, elapsed: seq<int>, replies: seq<Reply>, b: Build)
    requires Environment(limit, elapsed, replies)
    ensures Poll(limit, elapsed, replies) == Succeeded(b) <==>
      exists j: nat :: StopsAt(limit, elapsed, replies, j) && elapsed[j] < limit
                  && replies[j] == Fetched(b) && b.status == SUCCESSFUL
  {
    var s := Stop(limit, elapsed, replies);
    StopUnique(limit, elapsed, replies, s);
    assert StopsAt(limit, elapsed, replies, s);
    forall j: nat | StopsAt(limit, elapsed, replies, j) ensures j == s {
      StopUnique(limit, elapsed, replies, j);
    }
  }

  /** The poll fails with `b` exactly when it stops at a pass inside the deadline
      that fetched `b` with a status that is neither SUCCESSFUL nor in progress;
      a status the poller does not know counts as a failure. */
  lemma FailsIff(limit: int, elapsed: seq<int>, replies: seq<Reply>, b: Build)
    requires Environment(limit, elapsed, replies)
    ensures Poll(limit, elapsed, replies) == Failed(b) <==>
      exists j: nat :: StopsAt(limit, elapsed, replies, j) && elapsed[j] < limit
                  && replies[j] == Fetched(b) && b.status != SUCCESSFUL && !InProgress(b.status)
  {
    var s := Stop(limit, elapsed, replies);
    StopUnique(limit, elapsed, replies, s);
    assert StopsAt(limit, elapsed, replies, s);
    forall j: nat | StopsAt(limit, elapsed, replies, j) ensures j == s {
      StopUnique(limit, elapsed, replies, j);
    }
  }

  /** The poll times out exactly when it stops at a pass that found the deadline
      already passed. */
  lemma TimesOutIff(limit: int, elapsed: seq<int>, replies: seq<Reply>)
    requires Environment(limit, elapsed, replies)
    ensures Poll(limit, elapsed, replies) == TimedOut <==>
      exists j: nat :: StopsAt(limit, elapsed, replies, j) && elapsed[j] >= limit
  {
    var s := Stop(limit, elapsed, replies);
    StopUnique(limit, elapsed, replies, s);
    assert StopsAt(limit, elapsed, replies, s);
    forall j: nat | StopsAt(limit, elapsed, replies, j) ensures j == s {
      StopUnique(limit, elapsed, replies, j);
    }
  }

  /** An error the client raises ends the poll with that error, at once. */
  lemma RaisesIff(limit: int, elapsed: seq<int>, replies: seq<Reply>, message: string, isTimeoutError: bool)
    requires Environment(limit, elapsed, replies)
    ensures Poll(limit, elapsed, replies) == Raised(message, isTimeoutError) <==>
      exists j: nat :: StopsAt(limit, elapsed, replies, j) && elapsed[j] < limit
                  && replies[j] == QueryError(message, isTimeoutError)
  {
    var s := Stop(limit, elapsed, replies);
    StopUnique(limit, elapsed, replies, s);
    assert StopsAt(limit, elapsed, replies, s);
    forall j: nat | StopsAt(limit, elapsed, replies, j) ensures j == s {
      StopUnique(limit, elapsed, replies, j);
    }
  }

  /** With a timeout of zero minutes or less the deadline has passed at the first
      check, so the client is never asked and the poll times out. */
  lemma NonPositiveTimeout(timeout: int, elapsed: seq<int>, replies: seq<Reply>)
    requires Environment(Limit(timeout), elapsed, replies)
    requires timeout <= 0 && elapsed[0] >= 0
    ensures Poll(Limit(timeout), elapsed, replies) == TimedOut
    ensures Polled(Limit(timeout), elapsed, replies) == 0
    ensures PollLog(Limit(timeout), elapsed, replies) == []
  {
    StopUnique(Limit(timeout), elapsed, replies, 0);
  }

  /** A SUCCESSFUL snapshot on the first query, inside the deadline, is returned. */
  lemma ImmediateSuccess(limit: int, elapsed: seq<int>, replies: seq<Reply>)
    requires Environment(limit, elapsed, replies)
    requires elapsed[0] < limit && replies[0].Fetched? && replies[0].build.status == SUCCESSFUL
    ensures Poll(limit, elapsed, replies) == Succeeded(replies[0].build)
    ensures PollLog(limit, elapsed, replies) == ["SUCCESSFUL"]
  {
    StopUnique(limit, elapsed, replies, 0);
    assert replies[..1] == [replies[0]];
    assert StatusNames(replies[..1]) == ["SUCCESSFUL"] by {
      assert replies[..1][1..] == [];
    }
    assert ["SUCCESSFUL"][..0] == [];
  }

  /** Two in-progress snapshots and then a successful one, all inside the deadline:
      the successful snapshot is returned and two status lines are printed. */
  lemma InProgressThenSuccess(limit: int, elapsed: seq<int>, id: string, metrics: string)
    requires |elapsed| == 4 && elapsed[0] < limit && elapsed[1] < limit && elapsed[2] < limit
    requires elapsed[3] >= limit
    ensures var running, done := Build(id, IN_PROGRESS, metrics), Build(id, SUCCESSFUL, metrics);
      var replies := [Fetched(running), Fetched(running), Fetched(done)];
      Environment(limit, elapsed, replies)
      && Poll(limit, elapsed, replies) == Succeeded(done)
      && PollLog(limit, elapsed, replies) == ["IN_PROGRESS", "SUCCESSFUL"]
  {
    var running, done := Build(id, IN_PROGRESS, metrics), Build(id, SUCCESSFUL, metrics);
    var replies := [Fetched(running), Fetched(running), Fetched(done)];
    assert Environment(limit, elapsed, replies);
    assert Poll(limit, elapsed, replies) == Succeeded(done) && Polled(limit, elapsed, replies) == 3 by {
      assert Continues(limit, elapsed, replies, 0) && Continues(limit, elapsed, replies, 1);
      assert StopsAt(limit, elapsed, replies, 2);
      EndsAt(limit, elapsed, replies, 2);
    }
    assert replies[..3] == replies;
    SampleNames(running, done);
    SampleLog();
  }

  lemma SampleNames(running: Build, done: Build)
    ensures StatusNames([Fetched(running), Fetched(running), Fetched(done)])
         == [running.status.name, running.status.name, done.status.name]
  {
    StatusNamesSnoc([], Fetched(running));
    StatusNamesSnoc([Fetched(running)], Fetched(running));
    StatusNamesSnoc([Fetched(running), Fetched(running)], Fetched(done));
    assert [] + [Fetched(running)] == [Fetched(running)];
    assert [Fetched(running)] + [Fetched(running)] == [Fetched(running), Fetched(running)];
    assert [Fetched(running), Fetched(running)] + [Fetched(done)] == [Fetched(running), Fetched(running), Fetched(done)];
  }

  lemma SampleLog()
    ensures ChangeLog(["IN_PROGRESS", "IN_PROGRESS", "SUCCESSFUL"]) == ["IN_PROGRESS", "SUCCESSFUL"]
  {
    ChangeLogSnoc([], "IN_PROGRESS");
    ChangeLogSnoc(["IN_PROGRESS"], "IN_PROGRESS");
    ChangeLogSnoc(["IN_PROGRESS", "IN_PROGRESS"], "SUCCESSFUL");
    assert [] + ["IN_PROGRESS"] == ["IN_PROGRESS"];
    assert ["IN_PROGRESS"] + ["IN_PROGRESS"] == ["IN_PROGRESS", "IN_PROGRESS"];
    assert ["IN_PROGRESS", "IN_PROGRESS"] + ["SUCCESSFUL"] == ["IN_PROGRESS", "IN_PROGRESS", "SUCCESSFUL"];
  }

  /** A status outside the three known ones ends the poll on the pass that sees it. */
  lemma UnknownStatusFails(limit: int, elapsed: seq<int>, replies: seq<Reply>, j: nat)
    requires Environment(limit, elapsed, replies)
    requires j < |replies| && j < |elapsed| && elapsed[j] < limit && replies[j].Fetched?
    requires replies[j].build.status != SUCCESSFUL && !InProgress(replies[j].build.status)
    requires forall k :: 0 <= k < j ==> Continues(limit, elapsed, replies, k)
    ensures Poll(limit, elapsed, replies) == Failed(replies[j].build)
    ensures Polled(limit, elapsed, replies) == j + 1
  {
    EndsAt(limit, elapsed, replies, j);
  }

  /** Only what the poll saw up to its stopping pass matters: another clock and
      client that agree on those passes end the poll in the same way. */
  lemma DependsOnlyOnPolled(limit: int, elapsed: seq<int>, replies: seq<Reply>,
                            elapsed': seq<int>, replies': seq<Reply>)
    requires Environment(limit, elapsed, replies) && Environment(limit, elapsed', replies')
    requires Stop(limit, elapsed, replies) < |elapsed'|
    requires elapsed'[..Stop(limit, elapsed, replies) + 1] == elapsed[..Stop(limit, elapsed, replies) + 1]
    requires forall k :: 0 <= k <= Stop(limit, elapsed, replies) && k < |replies| ==>
               k < |replies'| && replies'[k] == replies[k]
    ensures Poll(limit, elapsed', replies') == Poll(limit, elapsed, replies)
    ensures PollLog(limit, elapsed', replies') == PollLog(limit, elapsed, replies)
  {
    var s := Stop(limit, elapsed, replies);
    forall k | 0 <= k <= s ensures elapsed'[k] == elapsed[k] {
      assert elapsed'[..s + 1][k] == elapsed[..s + 1][k];
    }
    forall k | 0 <= k < s ensures Continues(limit, elapsed', replies', k) {
      assert Continues(limit, elapsed, replies, k);
    }
    assert !Continues(limit, elapsed', replies', s);
    StopUnique(limit, elapsed, replies, s);
    StopUnique(limit, elapsed', replies', s);
    assert Stop(limit, elapsed', replies') == s;
    var n := Polled(limit, elapsed, replies);
    assert n <= |replies| && n <= |replies'|;
    assert replies'[..n] == replies[..n];
  }

  // ---------------------------------------------------------------------------
  // What the log promises

  /** The log has one line per run of equal neighbouring statuses. */
  lemma {:induction false} ChangeLogLength(names: seq<string>)
    ensures |ChangeLog(names)| == Runs(names)
  {
    if |names| >= 2 {
      var init := names[..|names| - 1];
      ChangeLogLength(init);
      RunsSnoc(init, names[|names| - 1]);
      assert init + [names[|names| - 1]] == names;
    }
  }

  lemma {:induction false} RunsSnoc(names: seq<string>, x: string)
    requires names != []
    ensures Runs(names + [x]) == Runs(names) + (if names[|names| - 1] != x then 1 else 0)
  {
    if |names| == 1 {
      assert (names + [x])[1..] == [x];
    } else {
      assert (names + [x])[1..] == names[1..] + [x];
      RunsSnoc(names[1..], x);
    }
  }

  /** No two neighbouring log lines are equal. */
  lemma {:induction false} ChangeLogNoRepeats(names: seq<string>)
    ensures forall k :: 0 < k < |ChangeLog(names)| ==> ChangeLog(names)[k] != ChangeLog(names)[k - 1]
    ensures names != [] ==> ChangeLog(names) != [] && ChangeLog(names)[|ChangeLog(names)| - 1] == names[|names| - 1]
  {
    if names != [] {
      ChangeLogNoRepeats(names[..|names| - 1]);
    }
  }

  /** Every status seen is logged, and only statuses seen are. */
  lemma {:induction false} ChangeLogSameStatuses(names: seq<string>)
    ensures (set x | x in ChangeLog(names)) == (set x | x in names)
  {
    if names != [] {
      var init, x := names[..|names| - 1], names[|names| - 1];
      ChangeLogSameStatuses(init);
      assert names == init + [x];
      ChangeLogSnoc(init, x);
      assert (set y | y in names) == (set y | y in init) + {x};
      if init != [] && init[|init| - 1] == x {
        assert x in init;
      } else {
        assert (set y | y in ChangeLog(init) + [x]) == (set y | y in ChangeLog(init)) + {x};
      }
    }
  }
}
