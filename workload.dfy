/**
 * The workload engine: five fixed statement scripts, each run once per
 * injection against a table, and the classifier that turns the outcome of a
 * script into an `Effectiveness`.
 *
 * The database server and the failpoint endpoint are not modelled; they are a
 * `Server`, an oracle that answers each event given every event sent before
 * it. A run is then a deterministic function of the oracle, and its trace of
 * events is what the properties below are about.
 */
module Workloads {
  import opened Wrappers
  import opened Text
  import opened Common
  import opened Schema

  /** The failpoint every workload arms and disarms. */
  const FailpointName: string := "github.com/pingcap/tidb/table/tables/corruptMutations"

  /** The workload component of every results key. */
  const WorkloadColumn: string := "workload_a"

  datatype Variant = SingleInsertion | DoubleInsertion | T2 | T3 | T4

  /** The workloads by the name the command line selects them with. */
  const Registry: map<string, Variant> :=
    map["single" := SingleInsertion, "double" := DoubleInsertion, "t2" := T2, "t3" := T3, "t4" := T4]

  /** The name a workload is registered under. */
  function VariantName(v: Variant): string {
    match v
    case SingleInsertion => "single"
    case DoubleInsertion => "double"
    case T2 => "t2"
    case T3 => "t3"
    case T4 => "t4"
  }

  /** The workload registered under `name`; the source unwraps the lookup, so `None` is its panic. */
  function FindWorkload(name: string): Option<Variant> {
    if name in Registry then Some(Registry[name]) else None
  }

  /** Every workload is registered under its own name, and nothing else is registered. */
  lemma FindWorkloadExactly(name: string, v: Variant)
    ensures FindWorkload(name) == Some(v) <==> name == VariantName(v)
  {
    if name == VariantName(v) {
      match v
      case SingleInsertion => assert name == "single";
      case DoubleInsertion => assert name == "double";
      case T2 => assert name == "t2";
      case T3 => assert name == "t3";
      case T4 => assert name == "t4";
    }
  }

  /** The two system-variable settings taken from the command line. */
  datatype Config = Config(mutationChecker: string, assertion: string)

  /** Everything a workload sends, to the database or to the failpoint endpoint. */
  datatype Event =
    | Acquire                            // take a connection from the pool
    | SetVariable(sql: string)           // a session variable of the workload's connection
    | Drop(sql: string)
    | Create(sql: string)
    | Exec(sql: string)                  // a DML or transaction-control statement of the script
    | Rollback(sql: string)
    | AdminCheck(sql: string)            // `admin check table`, on a pooled connection
    | Enable(name: string, value: string)
    | Disable(name: string)

  datatype Reply = Ok | Err(message: string)

  /** The reply to an event, once the events of the history have been sent. */
  type Server = (seq<Event>, Event) -> Reply

  /** How a workload run ended: normally, with an error returned to its caller, or with a panic. */
  datatype Status = Completed | Aborted(message: string) | Panicked(reason: string)

  datatype Key = Key(table: Table, workload: string, injection: string)

  type Results = map<Key, Effectiveness>

  datatype Outcome = Outcome(status: Status, trace: seq<Event>, results: Results)

  // ---------------------------------------------------------------------------
  // The classifier
  // ---------------------------------------------------------------------------

  /** The error text names an inconsistency or a failed assertion, in any letter case. */
  ghost predicate ReportsInconsistency(message: string) {
    exists i :: OccursAt(Lower(message), "inconsist", i) || OccursAt(Lower(message), "assertion", i)
  }

  /** The class of an error returned by the script. */
  function Verdict(message: string): (e: Effectiveness)
    ensures e == Success || e == OtherError
    ensures e == Success <==> ReportsInconsistency(message)
  {
    var text := Lower(message);
    ContainsIff(text, "inconsist");
    ContainsIff(text, "assertion");
    if Contains(text, "inconsist") || Contains(text, "assertion") then Success else OtherError
  }

  /** The verdict does not depend on letter case. */
  lemma VerdictIgnoresCase(message: string)
    ensures Verdict(Lower(message)) == Verdict(message)
  {
    LowerIdempotent(message);
  }

  /** Text around an error that reports an inconsistency does not change its class. */
  lemma VerdictOfWrapped(prefix: string, message: string, suffix: string)
    requires Verdict(message) == Success
    ensures Verdict(prefix + message + suffix) == Success
  {
    var text := Lower(message);
    LowerConcat(prefix + message, suffix);
    LowerConcat(prefix, message);
    assert Lower(prefix + message + suffix) == Lower(prefix) + text + Lower(suffix);
    ContainsIff(text, "inconsist");
    ContainsIff(text, "assertion");
    if Contains(text, "inconsist") {
      ContainsPrepend(Lower(prefix), text, "inconsist");
      ContainsAppend(Lower(prefix) + text, "inconsist", Lower(suffix));
    } else {
      ContainsPrepend(Lower(prefix), text, "assertion");
      ContainsAppend(Lower(prefix) + text, "assertion", Lower(suffix));
    }
  }

  /** The class of a script that succeeded, from the reply to `admin check table`. */
  function CheckVerdict(check: Reply): Effectiveness {
    if check.Ok? then Consistent else Failure
  }

  function AdminCheckSql(t: Table): string {
    "admin check table " + t.name
  }

  /**
   * Classifies the script's result and records it under the one key
   * (table, "workload_a", injection); `admin check table` is sent only
   * after a script that succeeded.
   */
  function Collect(res: Reply, t: Table, injection: string, server: Server, history: seq<Event>, results: Results)
    : (r: (seq<Event>, Results))
    ensures r.0 == history + (if res.Ok? then [AdminCheck(AdminCheckSql(t))] else [])
    ensures r.1.Keys == results.Keys + {Key(t, WorkloadColumn, injection)}
    ensures forall k :: k in results && k != Key(t, WorkloadColumn, injection) ==> r.1[k] == results[k]
  {
    var key := Key(t, WorkloadColumn, injection);
    if res.Ok? then
      var check := AdminCheck(AdminCheckSql(t));
      (history + [check], results[key := CheckVerdict(server(history, check))])
    else
      (history, results[key := Verdict(res.message)])
  }

  /** Each of the four classes is recorded exactly in its own case. */
  lemma CollectClassifies(res: Reply, t: Table, injection: string, server: Server, history: seq<Event>, results: Results)
    ensures var e := Collect(res, t, injection, server, history, results).1[Key(t, WorkloadColumn, injection)];
      var check := server(history, AdminCheck(AdminCheckSql(t)));
      && (e == Consistent <==> res.Ok? && check.Ok?)
      && (e == Failure <==> res.Ok? && check.Err?)
      && (e == Success <==> res.Err? && ReportsInconsistency(res.message))
      && (e == OtherError <==> res.Err? && !ReportsInconsistency(res.message))
  {
  }

  /** The classifier and the insertion into the results map. */
  method CollectResult(res: Reply, results: Results, t: Table, injection: string, server: Server, history: seq<Event>)
    returns (trace: seq<Event>, results': Results)
    ensures (trace, results') == Collect(res, t, injection, server, history, results)
  {
    var e: Effectiveness;
    trace := history;
    match res {
      case Ok =>
        var check := AdminCheck(AdminCheckSql(t));
        var reply := server(trace, check);
        trace := trace + [check];
        e := if reply.Ok? then Consistent else Failure;
      case Err(message) =>
        var text := Lower(message);
        if Contains(text, "inconsist") || Contains(text, "assertion") {
          e := Success;
        } else {
          e := OtherError;
        }
    }
    results' := results[Key(t, WorkloadColumn, injection) := e];
  }

  // ---------------------------------------------------------------------------
  // Scripts
  // ---------------------------------------------------------------------------

  /** One statement of a script, or the arming of the failpoint. */
  datatype Step = Run(sql: string) | Arm(value: string)

  function StepEvent(s: Step): Event {
    match s
    case Run(sql) => Exec(sql)
    case Arm(value) => Enable(FailpointName, value)
  }

  function Events(steps: seq<Step>): (r: seq<Event>)
    ensures |r| == |steps|
    ensures forall i :: 0 <= i < |steps| ==> r[i] == StepEvent(steps[i])
  {
    seq(|steps|, i requires 0 <= i < |steps| => StepEvent(steps[i]))
  }

  /** Where a script stopped: the reply to its last step sent (`Ok` when all succeeded) and how many steps were sent. */
  datatype Stop = Stop(reply: Reply, sent: nat)

  /** Sends the steps in order; the first one refused ends the script (the `?` chain). */
  function Script(server: Server, history: seq<Event>, steps: seq<Step>): (r: Stop)
    ensures r.sent <= |steps|
    ensures r.reply.Ok? ==> r.sent == |steps|
    ensures r.reply.Err? ==> r.sent > 0
    decreases |steps|
  {
    if steps == [] then Stop(Ok, 0)
    else
      var e := StepEvent(steps[0]);
      var reply := server(history, e);
      if reply.Err? then Stop(reply, 1)
      else
        var rest := Script(server, history + [e], steps[1..]);
        Stop(rest.reply, rest.sent + 1)
  }

  /** The reply to step `i` of a script, once the steps before it have been sent after `history`. */
  function ReplyAt(server: Server, history: seq<Event>, steps: seq<Step>, i: nat): Reply
    requires i < |steps|
  {
    server(history + Events(steps[..i]), StepEvent(steps[i]))
  }

  /** Step `i` of a script is step `i - 1` of its tail, sent after its first step. */
  lemma ReplyAtTail(server: Server, history: seq<Event>, steps: seq<Step>, i: nat)
    requires 1 <= i < |steps|
    ensures ReplyAt(server, history, steps, i) == ReplyAt(server, history + [StepEvent(steps[0])], steps[1..], i - 1)
  {
    var e := StepEvent(steps[0]);
    assert Events(steps[..i]) == [e] + Events(steps[1..][..i - 1]);
    assert history + Events(steps[..i]) == history + [e] + Events(steps[1..][..i - 1]);
    assert steps[i] == steps[1..][i - 1];
  }

  /**
   * A script sends its steps in order and stops at the first one refused:
   * every step before the last one sent was accepted, and the script's reply
   * is the reply to that last step.
   */
  lemma {:induction false} ScriptStopsAtFirstError(server: Server, history: seq<Event>, steps: seq<Step>)
    ensures var r := Script(server, history, steps);
      && (forall i :: 0 <= i < r.sent - 1 ==> ReplyAt(server, history, steps, i).Ok?)
      && (r.reply.Ok? ==> r.sent == |steps| && (r.sent > 0 ==> ReplyAt(server, history, steps, r.sent - 1).Ok?))
      && (r.reply.Err? ==> r.reply == ReplyAt(server, history, steps, r.sent - 1))
    decreases |steps|
  {
    var r := Script(server, history, steps);
    if steps != [] {
      var e := StepEvent(steps[0]);
      assert ReplyAt(server, history, steps, 0) == server(history, e) by {
        assert Events(steps[..0]) == [];
        assert history + Events(steps[..0]) == history;
      }
      if server(history, e).Ok? {
        var tail := steps[1..];
        var rest := Script(server, history + [e], tail);
        ScriptStopsAtFirstError(server, history + [e], tail);
        assert r.sent == rest.sent + 1 && r.reply == rest.reply;
        forall i | 1 <= i < |steps|
          ensures ReplyAt(server, history, steps, i) == ReplyAt(server, history + [e], tail, i - 1)
        {
          ReplyAtTail(server, history, steps, i);
        }
      }
    }
  }

  // ---------------------------------------------------------------------------
  // The five workloads
  // ---------------------------------------------------------------------------

  /** The failpoint's action: every mutation for the single insertion, only the first one otherwise. */
  function FailpointValue(v: Variant, injection: string): string {
    if v == SingleInsertion then "return(\"" + injection + "\")" else "1*return(\"" + injection + "\")"
  }

  function SingleInsertionSql(t: Table): string {
    "insert into " + t.name + " values (" + RowText(NewRow(t.cols)) + ")"
  }

  function InsertionSql(t: Table, row: Row): string {
    "INSERT INTO " + t.name + " VALUES (" + RowText(row) + ")"
  }

  /** Sets the first column to its next value, in the row whose second column holds the first row's value. */
  function UpdateSql(t: Table, row: Row): string
    requires |t.cols| >= 2 && |row.cols| >= 2
  {
    "UPDATE " + t.name + " SET " + t.cols[0].name + " = " + DatumText(NextDatum(row.cols[0]))
      + " WHERE " + t.cols[1].name + " = " + DatumText(row.cols[1])
  }

  /** Deletes the rows whose first column holds the value the first row has in its second column. */
  function DeletionSql(t: Table, row: Row): string
    requires |t.cols| >= 1 && |row.cols| >= 2
  {
    "DELETE FROM " + t.name + " WHERE " + t.cols[0].name + " = " + DatumText(row.cols[1])
  }

  /**
   * A round's script: `setup` runs with `?` (a refusal ends the workload),
   * `body` is the script whose result is classified, and `rollback` is sent
   * when the body fails.
   */
  datatype Plan = Plan(setup: seq<Step>, body: seq<Step>, rollback: Option<string>)

  /** The UPDATE and DELETE statements read the first two columns, so those workloads need them. */
  predicate Formable(v: Variant, t: Table) {
    v == SingleInsertion || v == DoubleInsertion || |t.cols| >= 2
  }

  function SinglePlan(arm: string, insert: string): Plan {
    Plan([Arm(arm)], [Run(insert)], None)
  }

  function DoublePlan(arm: string, first: string, second: string): Plan {
    Plan([Arm(arm), Run("BEGIN OPTIMISTIC")], [Run(first), Run(second)], Some("ROLLBACK"))
  }

  function T2Plan(arm: string, insert: string, update: string): Plan {
    Plan([Arm(arm)],
         [Run("begin optimistic"), Run(insert), Run("commit"), Run("begin optimistic"), Run(update), Run("commit")],
         Some("rollback"))
  }

  function T3Plan(arm: string, insert: string, update: string, delete: string): Plan {
    Plan([Arm(arm), Run("begin optimistic")],
         [Run(insert), Run("commit"), Run("begin optimistic"), Run(update), Run(delete), Run("commit")],
         Some("rollback"))
  }

  function T4Plan(arm: string, insert: string, update: string): Plan {
    Plan([Run("begin optimistic")],
         [Run(insert), Run("commit"), Run("begin optimistic"), Arm(arm), Run(update), Run("commit")],
         Some("rollback"))
  }

  /** The script of workload `v` against table `t` for one injection. */
  function PlanOf(v: Variant, t: Table, injection: string): Plan
    requires Formable(v, t)
  {
    var row := NewRow(t.cols);
    var arm := FailpointValue(v, injection);
    match v
    case SingleInsertion => SinglePlan(arm, SingleInsertionSql(t))
    case DoubleInsertion => DoublePlan(arm, InsertionSql(t, row), InsertionSql(t, NextRow(row)))
    case T2 => T2Plan(arm, InsertionSql(t, row), UpdateSql(t, row))
    case T3 => T3Plan(arm, InsertionSql(t, row), UpdateSql(t, row), DeletionSql(t, row))
    case T4 => T4Plan(arm, InsertionSql(t, row), UpdateSql(t, row))
  }

  // ---------------------------------------------------------------------------
  // One round: one injection against one table
  // ---------------------------------------------------------------------------

  lemma EventsPrefix(steps: seq<Step>, k: nat)
    requires k <= |steps|
    ensures Events(steps[..k]) == Events(steps)[..k]
  {
  }

  /** After the script: the rollback when it failed, the classification, and the disabling of the failpoint. */
  function Finish(res: Reply, rollback: Option<string>, t: Table, injection: string, server: Server,
                  history: seq<Event>, results: Results): (o: Outcome)
  {
    if res.Err? && rollback.Some? && server(history, Rollback(rollback.value)).Err? then
      Outcome(Aborted(server(history, Rollback(rollback.value)).message), history + [Rollback(rollback.value)], results)
    else
      var h := if res.Err? && rollback.Some? then history + [Rollback(rollback.value)] else history;
      var (h', results') := Collect(res, t, injection, server, h, results);
      var disable := Disable(FailpointName);
      var reply := server(h', disable);
      Outcome(if reply.Err? then Aborted(reply.message) else Completed, h' + [disable], results')
  }

  /** The setup, then the script, then the rest of the round. */
  function Scripts(plan: Plan, t: Table, injection: string, server: Server, history: seq<Event>, results: Results)
    : (o: Outcome)
  {
    var setup := Script(server, history, plan.setup);
    if setup.reply.Err? then
      Outcome(Aborted(setup.reply.message), history + Events(plan.setup[..setup.sent]), results)
    else
      var h := history + Events(plan.setup);
      var body := Script(server, h, plan.body);
      var h' := h + Events(plan.body[..body.sent]);
      if body.reply.Err? && plan.body[body.sent - 1].Arm? then
        Outcome(Panicked("failed to enable failpoint"), h', results)
      else
        Finish(body.reply, plan.rollback, t, injection, server, h', results)
  }

  /** One iteration of a workload's loop over the injections. */
  function Round(v: Variant, t: Table, injection: string, server: Server, history: seq<Event>, results: Results)
    : (o: Outcome)
    requires Formable(v, t)
  {
    RoundOf(PlanOf(v, t, injection), DropSql(t), CreateSql(t), t, injection, server, history, results)
  }

  /** A round with the script `plan`: re-create the table with the two DDL statements, then run the scripts. */
  function RoundOf(plan: Plan, dropSql: string, createSql: string, t: Table, injection: string, server: Server,
                   history: seq<Event>, results: Results): (o: Outcome)
  {
    var drop, create := Drop(dropSql), Create(createSql);
    if server(history, drop).Err? then
      Outcome(Panicked("don't let drop statement fail"), history + [drop], results)
    else if server(history + [drop], create).Err? then
      Outcome(Panicked("don't let create statement fail"), history + [drop, create], results)
    else
      Scripts(plan, t, injection, server, history + [drop, create], results)
  }

  /** The result of a round's script, in a round whose setup went through. */
  function RoundResult(v: Variant, t: Table, injection: string, server: Server, history: seq<Event>): Reply
    requires Formable(v, t)
  {
    var plan := PlanOf(v, t, injection);
    Script(server, history + [Drop(DropSql(t)), Create(CreateSql(t))] + Events(plan.setup), plan.body).reply
  }

  method RunFinish(res: Reply, rollback: Option<string>, t: Table, injection: string, server: Server,
                   history: seq<Event>, results: Results) returns (o: Outcome)
    ensures o == Finish(res, rollback, t, injection, server, history, results)
  {
    var trace := history;
    if res.Err? && rollback.Some? {
      var reply := server(trace, Rollback(rollback.value));
      trace := trace + [Rollback(rollback.value)];
      if reply.Err? {
        return Outcome(Aborted(reply.message), trace, results);
      }
    }
    var results';
    trace, results' := CollectResult(res, results, t, injection, server, trace);
    var reply := server(trace, Disable(FailpointName));
    trace := trace + [Disable(FailpointName)];
    if reply.Err? {
      return Outcome(Aborted(reply.message), trace, results');
    }
    o := Outcome(Completed, trace, results');
  }

  method RunScripts(plan: Plan, t: Table, injection: string, server: Server, history: seq<Event>, results: Results)
    returns (o: Outcome)
    ensures o == Scripts(plan, t, injection, server, history, results)
  {
    var trace := history;
    var setup := Script(server, trace, plan.setup);
    trace := trace + Events(plan.setup[..setup.sent]);
    if setup.reply.Err? {
      return Outcome(Aborted(setup.reply.message), trace, results);
    }
    assert plan.setup[..setup.sent] == plan.setup;
    var body := Script(server, trace, plan.body);
    trace := trace + Events(plan.body[..body.sent]);
    if body.reply.Err? && plan.body[body.sent - 1].Arm? {
      return Outcome(Panicked("failed to enable failpoint"), trace, results);
    }
    o := RunFinish(body.reply, plan.rollback, t, injection, server, trace, results);
  }

  method RunRound(v: Variant, t: Table, injection: string, dropSql: string, createSql: string,
                  server: Server, history: seq<Event>, results: Results) returns (o: Outcome)
    requires Formable(v, t) && dropSql == DropSql(t) && createSql == CreateSql(t)
    ensures o == Round(v, t, injection, server, history, results)
  {
    var plan := PlanOf(v, t, injection);
    assert Round(v, t, injection, server, history, results)
        == RoundOf(plan, dropSql, createSql, t, injection, server, history, results);
    var trace := history;
    var reply := server(trace, Drop(dropSql));
    trace := trace + [Drop(dropSql)];
    if reply.Err? {
      return Outcome(Panicked("don't let drop statement fail"), trace, results);
    }
    reply := server(trace, Create(createSql));
    trace := trace + [Create(createSql)];
    if reply.Err? {
      return Outcome(Panicked("don't let create statement fail"), trace, results);
    }
    assert trace == history + [Drop(dropSql), Create(createSql)];
    o := RunScripts(plan, t, injection, server, trace, results);
  }

  // ---------------------------------------------------------------------------
  // What a round sends
  // ---------------------------------------------------------------------------

  /** The setup and script events of a plan, in order, when nothing is refused. */
  function ScriptEvents(plan: Plan): seq<Event> {
    Events(plan.setup) + Events(plan.body)
  }

  /** The events a round sends before its rollback, classification and disabling, when nothing is refused. */
  function Planned(v: Variant, t: Table, injection: string): seq<Event>
    requires Formable(v, t)
  {
    PlannedOf(PlanOf(v, t, injection), DropSql(t), CreateSql(t))
  }

  function PlannedOf(plan: Plan, dropSql: string, createSql: string): seq<Event> {
    [Drop(dropSql), Create(createSql)] + ScriptEvents(plan)
  }

  /** The events a round may send only after its planned part. */
  predicate Closing(e: Event) {
    e.Rollback? || e.AdminCheck? || e.Disable?
  }

  /**
   * `trace` is `history` followed by the first `n` planned events and then
   * closing events only.
   */
  predicate FollowsPlan(trace: seq<Event>, history: seq<Event>, planned: seq<Event>, n: int) {
    && 0 <= n <= |planned| && |history| + n <= |trace|
    && trace[..|history| + n] == history + planned[..n]
    && forall p :: |history| + n <= p < |trace| ==> Closing(trace[p])
  }

  lemma FinishCloses(res: Reply, rollback: Option<string>, t: Table, injection: string, server: Server,
                     history: seq<Event>, results: Results)
    ensures FollowsPlan(Finish(res, rollback, t, injection, server, history, results).trace, history, [], 0)
  {
  }

  /** A round whose setup is refused has sent the setup up to the refused statement. */
  lemma SetupRefusedFollowsPlan(plan: Plan, t: Table, injection: string, server: Server, history: seq<Event>,
                                results: Results)
    requires Script(server, history, plan.setup).reply.Err?
    ensures FollowsPlan(Scripts(plan, t, injection, server, history, results).trace, history, ScriptEvents(plan),
                        Script(server, history, plan.setup).sent)
  {
    var setup := Script(server, history, plan.setup);
    EventsPrefix(plan.setup, setup.sent);
    assert ScriptEvents(plan)[..setup.sent] == Events(plan.setup)[..setup.sent];
  }

  /** The events of the setup and of the first `k` body steps are the first events the plan lists. */
  lemma BodyPrefix(plan: Plan, history: seq<Event>, k: nat)
    requires k <= |plan.body|
    ensures history + Events(plan.setup) + Events(plan.body[..k]) == history + ScriptEvents(plan)[..|plan.setup| + k]
  {
    EventsPrefix(plan.body, k);
    assert ScriptEvents(plan)[..|plan.setup| + k] == Events(plan.setup) + Events(plan.body)[..k];
  }

  /** Closing events after the first `n` planned events follow the plan. */
  lemma ClosedFollowsPlan(trace: seq<Event>, history: seq<Event>, planned: seq<Event>, n: nat, sent: seq<Event>)
    requires n <= |planned| && sent == history + planned[..n] && FollowsPlan(trace, sent, [], 0)
    ensures FollowsPlan(trace, history, planned, n)
  {
    assert trace[..|history| + n] == history + planned[..n];
  }

  /** A trace that ends where the plan stopped follows it with nothing after. */
  lemma StoppedFollowsPlan(trace: seq<Event>)
    ensures FollowsPlan(trace, trace, [], 0)
  {
    assert trace + [][..0] == trace;
  }

  /** After a setup that went through, the scripts send nothing but closing events past where the body stopped. */
  lemma BodyCloses(plan: Plan, t: Table, injection: string, server: Server, history: seq<Event>, results: Results)
    requires Script(server, history, plan.setup).reply.Ok?
    ensures var h := history + Events(plan.setup);
      var body := Script(server, h, plan.body);
      FollowsPlan(Scripts(plan, t, injection, server, history, results).trace, h + Events(plan.body[..body.sent]), [], 0)
  {
    var o := Scripts(plan, t, injection, server, history, results);
    var h := history + Events(plan.setup);
    var body := Script(server, h, plan.body);
    var h' := h + Events(plan.body[..body.sent]);
    if body.reply.Err? && plan.body[body.sent - 1].Arm? {
      assert o.trace == h';
      StoppedFollowsPlan(h');
    } else {
      FinishCloses(body.reply, plan.rollback, t, injection, server, h', results);
      assert o == Finish(body.reply, plan.rollback, t, injection, server, h', results);
    }
  }

  /** A round whose setup went through has sent the setup, then the body up to where it stopped, then closing events. */
  lemma BodyFollowsPlan(plan: Plan, t: Table, injection: string, server: Server, history: seq<Event>,
                        results: Results)
    requires Script(server, history, plan.setup).reply.Ok?
    ensures var body := Script(server, history + Events(plan.setup), plan.body);
      FollowsPlan(Scripts(plan, t, injection, server, history, results).trace, history, ScriptEvents(plan),
                  |plan.setup| + body.sent)
  {
    var h := history + Events(plan.setup);
    var body := Script(server, h, plan.body);
    BodyPrefix(plan, history, body.sent);
    BodyCloses(plan, t, injection, server, history, results);
    ClosedFollowsPlan(Scripts(plan, t, injection, server, history, results).trace, history, ScriptEvents(plan),
                      |plan.setup| + body.sent, h + Events(plan.body[..body.sent]));
  }

  lemma ScriptsFollowPlan(plan: Plan, t: Table, injection: string, server: Server, history: seq<Event>, results: Results)
    ensures exists n :: FollowsPlan(Scripts(plan, t, injection, server, history, results).trace, history,
                                    ScriptEvents(plan), n)
  {
    if Script(server, history, plan.setup).reply.Err? {
      SetupRefusedFollowsPlan(plan, t, injection, server, history, results);
    } else {
      BodyFollowsPlan(plan, t, injection, server, history, results);
    }
  }


  /**
   * A round sends a prefix of its planned events, in order, and after them
   * only a rollback, an `admin check table` and the disabling of the failpoint.
   */
  lemma RoundFollowsPlan(v: Variant, t: Table, injection: string, server: Server, history: seq<Event>, results: Results)
    requires Formable(v, t)
    ensures exists n :: FollowsPlan(Round(v, t, injection, server, history, results).trace, history,
                                    Planned(v, t, injection), n)
  {
    var plan, dropSql, createSql := PlanOf(v, t, injection), DropSql(t), CreateSql(t);
    RoundOfFollowsPlan(plan, dropSql, createSql, t, injection, server, history, results);
    var n :| FollowsPlan(RoundOf(plan, dropSql, createSql, t, injection, server, history, results).trace, history,
                         PlannedOf(plan, dropSql, createSql), n);
    assert FollowsPlan(Round(v, t, injection, server, history, results).trace, history, Planned(v, t, injection), n);
  }

  /** Once both DDL statements went through, the round follows its plan as the scripts do. */
  lemma DdlDoneFollowsPlan(plan: Plan, dropSql: string, createSql: string, t: Table, injection: string,
                           server: Server, history: seq<Event>, results: Results, n: int)
    requires FollowsPlan(Scripts(plan, t, injection, server, history + [Drop(dropSql), Create(createSql)], results).trace,
                         history + [Drop(dropSql), Create(createSql)], ScriptEvents(plan), n)
    ensures FollowsPlan(Scripts(plan, t, injection, server, history + [Drop(dropSql), Create(createSql)], results).trace,
                        history, PlannedOf(plan, dropSql, createSql), 2 + n)
  {
    var ddl := [Drop(dropSql), Create(createSql)];
    var planned := PlannedOf(plan, dropSql, createSql);
    assert planned[..2 + n] == ddl + ScriptEvents(plan)[..n];
    assert history + planned[..2 + n] == history + ddl + ScriptEvents(plan)[..n];
  }

  lemma RoundOfFollowsPlan(plan: Plan, dropSql: string, createSql: string, t: Table, injection: string,
                           server: Server, history: seq<Event>, results: Results)
    ensures exists n :: FollowsPlan(RoundOf(plan, dropSql, createSql, t, injection, server, history, results).trace,
                                    history, PlannedOf(plan, dropSql, createSql), n)
  {
    var o := RoundOf(plan, dropSql, createSql, t, injection, server, history, results);
    var planned := PlannedOf(plan, dropSql, createSql);
    var drop, create := Drop(dropSql), Create(createSql);
    if server(history, drop).Err? {
      assert planned[..1] == [drop];
      assert FollowsPlan(o.trace, history, planned, 1);
    } else if server(history + [drop], create).Err? {
      assert planned[..2] == [drop, create];
      assert FollowsPlan(o.trace, history, planned, 2);
    } else {
      var h := history + [drop, create];
      ScriptsFollowPlan(plan, t, injection, server, h, results);
      var n :| FollowsPlan(Scripts(plan, t, injection, server, h, results).trace, h, ScriptEvents(plan), n);
      DdlDoneFollowsPlan(plan, dropSql, createSql, t, injection, server, history, results, n);
    }
  }


  lemma PlannedAt(trace: seq<Event>, history: seq<Event>, planned: seq<Event>, n: int, p: int)
    requires FollowsPlan(trace, history, planned, n)
    requires |history| <= p < |history| + n
    ensures trace[p] == planned[p - |history|]
  {
    assert trace[p] == trace[..|history| + n][p];
  }

  /** An event of a round that is a statement of the script or the arming of the failpoint is a planned one. */
  lemma ScriptEventPlanned(trace: seq<Event>, history: seq<Event>, planned: seq<Event>, n: int, p: int)
    requires FollowsPlan(trace, history, planned, n)
    requires |history| <= p < |trace| && (trace[p].Exec? || trace[p].Enable?)
    ensures p < |history| + n && trace[p] == planned[p - |history|]
  {
    PlannedAt(trace, history, planned, n, p);
  }

  /** Some event of `events` is a rollback. */
  predicate HasRollback(events: seq<Event>) {
    exists i :: 0 <= i < |events| && events[i].Rollback?
  }

  predicate NoClosing(events: seq<Event>) {
    forall i :: 0 <= i < |events| ==> !Closing(events[i])
  }

  lemma ClosingAfter(prefix: seq<Event>, tail: seq<Event>, check: Event)
    requires NoClosing(prefix) && check.AdminCheck?
    ensures HasRollback(prefix + tail) <==> HasRollback(tail)
    ensures check in prefix + tail <==> check in tail
  {
    var all := prefix + tail;
    if HasRollback(tail) {
      var i :| 0 <= i < |tail| && tail[i].Rollback?;
      assert all[|prefix| + i] == tail[i];
    }
  }

  /** The events after the script of a round that completes: the rollback and the check its result calls for, then the disabling. */
  function Closes(res: Reply, rollback: Option<string>, t: Table): seq<Event> {
    (if res.Err? && rollback.Some? then [Rollback(rollback.value)] else [])
      + (if res.Ok? then [AdminCheck(AdminCheckSql(t))] else [])
      + [Disable(FailpointName)]
  }

  lemma ClosesFacts(res: Reply, rollback: Option<string>, t: Table)
    ensures var c := Closes(res, rollback, t);
      && |c| > 0 && c[|c| - 1] == Disable(FailpointName)
      && (HasRollback(c) <==> res.Err? && rollback.Some?)
      && (AdminCheck(AdminCheckSql(t)) in c <==> res.Ok?)
      && (res.Ok? ==> c == [AdminCheck(AdminCheckSql(t)), Disable(FailpointName)])
  {
    var c := Closes(res, rollback, t);
    if res.Err? && rollback.Some? {
      assert c[0].Rollback?;
    }
  }

  /** A round's end, when it completes: the closing events, and the one result recorded. */
  lemma FinishCompleted(res: Reply, rollback: Option<string>, t: Table, injection: string, server: Server,
                        history: seq<Event>, results: Results)
    requires Finish(res, rollback, t, injection, server, history, results).status.Completed?
    ensures var o := Finish(res, rollback, t, injection, server, history, results);
      var key := Key(t, WorkloadColumn, injection);
      && o.trace == history + Closes(res, rollback, t)
      && o.results.Keys == results.Keys + {key}
      && (forall k :: k in results && k != key ==> o.results[k] == results[k])
      && (res.Err? ==> o.results[key] == Verdict(res.message))
      && (res.Ok? ==> o.results[key] == CheckVerdict(server(history, AdminCheck(AdminCheckSql(t)))))
  {
  }

  /** A round that completed went through its DDL and its setup, and then finished normally. */
  lemma RoundOfCompleted(plan: Plan, dropSql: string, createSql: string, t: Table, injection: string,
                         server: Server, history: seq<Event>, results: Results)
    requires RoundOf(plan, dropSql, createSql, t, injection, server, history, results).status.Completed?
    ensures var h := history + [Drop(dropSql), Create(createSql)] + Events(plan.setup);
      var body := Script(server, h, plan.body);
      RoundOf(plan, dropSql, createSql, t, injection, server, history, results)
        == Finish(body.reply, plan.rollback, t, injection, server, h + Events(plan.body[..body.sent]), results)
  {
    var h0 := history + [Drop(dropSql), Create(createSql)];
    assert plan.setup[..Script(server, h0, plan.setup).sent] == plan.setup;
  }

  /**
   * How a round that completed ends, given its script's result: a rollback
   * exactly when the script failed and the workload has one, `admin check
   * table` exactly when the script succeeded, the disabling of the failpoint
   * last, and one result recorded under the round's key.
   */
  predicate RoundEnded(o: Outcome, history: seq<Event>, res: Reply, rollback: Option<string>, t: Table,
                       injection: string, server: Server, results: Results)
  {
    var key := Key(t, WorkloadColumn, injection);
    var check := AdminCheck(AdminCheckSql(t));
    && |o.trace| >= |history| + 1 && o.trace[..|history|] == history
    && (HasRollback(o.trace[|history|..]) <==> res.Err? && rollback.Some?)
    && (check in o.trace[|history|..] <==> res.Ok?)
    && o.trace[|o.trace| - 1] == Disable(FailpointName)
    && o.results.Keys == results.Keys + {key}
    && (forall k :: k in results && k != key ==> o.results[k] == results[k])
    && (res.Err? ==> o.results[key] == Verdict(res.message))
    && (res.Ok? ==> |o.trace| >= 2 && o.results[key] == CheckVerdict(server(o.trace[..|o.trace| - 2], check)))
  }

  lemma FinishEnded(o: Outcome, history: seq<Event>, prefix: seq<Event>, res: Reply, rollback: Option<string>,
                    t: Table, injection: string, server: Server, results: Results)
    requires NoClosing(prefix)
    requires o == Finish(res, rollback, t, injection, server, history + prefix, results) && o.status.Completed?
    ensures RoundEnded(o, history, res, rollback, t, injection, server, results)
  {
    FinishCompleted(res, rollback, t, injection, server, history + prefix, results);
    ClosedTrace(o.trace, history, prefix, res, rollback, t);
  }

  lemma CompletedRoundOf(plan: Plan, dropSql: string, createSql: string, t: Table, injection: string,
                         server: Server, history: seq<Event>, results: Results)
    requires RoundOf(plan, dropSql, createSql, t, injection, server, history, results).status.Completed?
    ensures RoundEnded(RoundOf(plan, dropSql, createSql, t, injection, server, history, results), history,
                       Script(server, history + [Drop(dropSql), Create(createSql)] + Events(plan.setup), plan.body).reply,
                       plan.rollback, t, injection, server, results)
  {
    RoundOfCompleted(plan, dropSql, createSql, t, injection, server, history, results);
    BodyFinishEnded(plan, dropSql, createSql, t, injection, server, history, results);
  }

  /** The closing steps after the round's scripts, when they complete, end the round as `RoundEnded` says. */
  lemma BodyFinishEnded(plan: Plan, dropSql: string, createSql: string, t: Table, injection: string,
                        server: Server, history: seq<Event>, results: Results)
    ensures var h := history + [Drop(dropSql), Create(createSql)] + Events(plan.setup);
      var body := Script(server, h, plan.body);
      var o := Finish(body.reply, plan.rollback, t, injection, server, h + Events(plan.body[..body.sent]), results);
      o.status.Completed? ==> RoundEnded(o, history, body.reply, plan.rollback, t, injection, server, results)
  {
    var h := history + [Drop(dropSql), Create(createSql)] + Events(plan.setup);
    var body := Script(server, h, plan.body);
    var h' := h + Events(plan.body[..body.sent]);
    var o := Finish(body.reply, plan.rollback, t, injection, server, h', results);
    if o.status.Completed? {
      var prefix := [Drop(dropSql), Create(createSql)] + Events(plan.setup) + Events(plan.body[..body.sent]);
      assert h' == history + prefix;
      OpeningNoClosing(dropSql, createSql, plan.setup, plan.body[..body.sent]);
      FinishEnded(o, history, prefix, body.reply, plan.rollback, t, injection, server, results);
    }
  }

  lemma OpeningNoClosing(dropSql: string, createSql: string, setup: seq<Step>, body: seq<Step>)
    ensures NoClosing([Drop(dropSql), Create(createSql)] + Events(setup) + Events(body))
  {
    var all := [Drop(dropSql), Create(createSql)] + Events(setup) + Events(body);
    forall i | 0 <= i < |all|
      ensures !Closing(all[i])
    {
      if i >= 2 + |setup| {
        assert all[i] == StepEvent(body[i - 2 - |setup|]);
      } else if i >= 2 {
        assert all[i] == StepEvent(setup[i - 2]);
      }
    }
  }

  /** The facts about a trace made of no closing events and then the closing ones. */
  lemma ClosedTrace(trace: seq<Event>, history: seq<Event>, prefix: seq<Event>, res: Reply, rollback: Option<string>, t: Table)
    requires NoClosing(prefix) && trace == history + prefix + Closes(res, rollback, t)
    ensures |trace| >= |history| + |prefix| + 1 && trace[..|history|] == history
      && (HasRollback(trace[|history|..]) <==> res.Err? && rollback.Some?)
      && (AdminCheck(AdminCheckSql(t)) in trace[|history|..] <==> res.Ok?)
      && trace[|trace| - 1] == Disable(FailpointName)
      && (res.Ok? ==> trace[..|trace| - 2] == history + prefix)
  {
    var closes := Closes(res, rollback, t);
    assert trace[|history|..] == prefix + closes;
    ClosingAfter(prefix, closes, AdminCheck(AdminCheckSql(t)));
    ClosesFacts(res, rollback, t);
    if res.Ok? {
      assert trace[..|trace| - 2] == history + prefix;
    }
  }

  /**
   * A round that completed ends as `RoundEnded` says, with its script's
   * result; every workload but the single insertion has a rollback.
   */
  lemma CompletedRound(v: Variant, t: Table, injection: string, server: Server, history: seq<Event>, results: Results)
    requires Formable(v, t)
    requires Round(v, t, injection, server, history, results).status.Completed?
    ensures RoundEnded(Round(v, t, injection, server, history, results), history,
                       RoundResult(v, t, injection, server, history), PlanOf(v, t, injection).rollback,
                       t, injection, server, results)
    ensures PlanOf(v, t, injection).rollback.Some? <==> v != SingleInsertion
  {
    var plan, dropSql, createSql := PlanOf(v, t, injection), DropSql(t), CreateSql(t);
    CompletedRoundOf(plan, dropSql, createSql, t, injection, server, history, results);
  }

  /** The setup and script events of each workload, written out. */
  lemma SingleEvents(arm: string, insert: string)
    ensures ScriptEvents(SinglePlan(arm, insert)) == [Enable(FailpointName, arm), Exec(insert)]
  {
  }

  lemma DoubleEvents(arm: string, first: string, second: string)
    ensures ScriptEvents(DoublePlan(arm, first, second))
      == [Enable(FailpointName, arm), Exec("BEGIN OPTIMISTIC"), Exec(first), Exec(second)]
  {
  }

  lemma T2Events(arm: string, insert: string, update: string)
    ensures ScriptEvents(T2Plan(arm, insert, update))
      == [Enable(FailpointName, arm), Exec("begin optimistic"), Exec(insert), Exec("commit"),
          Exec("begin optimistic"), Exec(update), Exec("commit")]
  {
  }

  lemma T3Events(arm: string, insert: string, update: string, delete: string)
    ensures ScriptEvents(T3Plan(arm, insert, update, delete))
      == [Enable(FailpointName, arm), Exec("begin optimistic"), Exec(insert), Exec("commit"),
          Exec("begin optimistic"), Exec(update), Exec(delete), Exec("commit")]
  {
  }

  lemma T4Events(arm: string, insert: string, update: string)
    ensures ScriptEvents(T4Plan(arm, insert, update))
      == [Exec("begin optimistic"), Exec(insert), Exec("commit"), Exec("begin optimistic"),
          Enable(FailpointName, arm), Exec(update), Exec("commit")]
  {
  }

  /** Every arming in the script uses the action `arm`. */
  predicate ArmsWith(plan: Plan, arm: string) {
    var events := ScriptEvents(plan);
    forall i :: 0 <= i < |events| && events[i].Enable? ==> events[i] == Enable(FailpointName, arm)
  }

  /** The script arms the failpoint with `arm` before anything else. */
  predicate ArmsFirst(plan: Plan, arm: string) {
    var events := ScriptEvents(plan);
    && |events| > 1 && events[0] == Enable(FailpointName, arm)
    && forall i :: 0 <= i < |events| && events[i].Exec? ==> i > 0
  }

  lemma SingleArms(arm: string, insert: string)
    ensures ArmsWith(SinglePlan(arm, insert), arm) && ArmsFirst(SinglePlan(arm, insert), arm)
  {
    SingleEvents(arm, insert);
  }

  lemma DoubleArms(arm: string, first: string, second: string)
    ensures ArmsWith(DoublePlan(arm, first, second), arm) && ArmsFirst(DoublePlan(arm, first, second), arm)
  {
    DoubleEvents(arm, first, second);
  }

  lemma T2Arms(arm: string, insert: string, update: string)
    ensures ArmsWith(T2Plan(arm, insert, update), arm) && ArmsFirst(T2Plan(arm, insert, update), arm)
  {
    T2Events(arm, insert, update);
  }

  lemma T3Arms(arm: string, insert: string, update: string, delete: string)
    ensures ArmsWith(T3Plan(arm, insert, update, delete), arm) && ArmsFirst(T3Plan(arm, insert, update, delete), arm)
  {
    T3Events(arm, insert, update, delete);
  }

  lemma T4Arms(arm: string, insert: string, update: string)
    ensures ArmsWith(T4Plan(arm, insert, update), arm)
  {
    T4Events(arm, insert, update);
  }

  lemma PlanArms(v: Variant, t: Table, injection: string)
    requires Formable(v, t)
    ensures ArmsWith(PlanOf(v, t, injection), FailpointValue(v, injection))
    ensures v != T4 ==> ArmsFirst(PlanOf(v, t, injection), FailpointValue(v, injection))
  {
    var row := NewRow(t.cols);
    var arm := FailpointValue(v, injection);
    match v
    case SingleInsertion => SingleArms(arm, SingleInsertionSql(t));
    case DoubleInsertion => DoubleArms(arm, InsertionSql(t, row), InsertionSql(t, NextRow(row)));
    case T2 => T2Arms(arm, InsertionSql(t, row), UpdateSql(t, row));
    case T3 => T3Arms(arm, InsertionSql(t, row), UpdateSql(t, row), DeletionSql(t, row));
    case T4 => T4Arms(arm, InsertionSql(t, row), UpdateSql(t, row));
  }

  lemma RoundOfArms(plan: Plan, arm: string, dropSql: string, createSql: string, t: Table, injection: string,
                    server: Server, history: seq<Event>, results: Results)
    requires ArmsWith(plan, arm)
    ensures var o := RoundOf(plan, dropSql, createSql, t, injection, server, history, results);
      forall p :: |history| <= p < |o.trace| && o.trace[p].Enable? ==> o.trace[p] == Enable(FailpointName, arm)
  {
    var o := RoundOf(plan, dropSql, createSql, t, injection, server, history, results);
    var planned := PlannedOf(plan, dropSql, createSql);
    RoundOfFollowsPlan(plan, dropSql, createSql, t, injection, server, history, results);
    var n :| FollowsPlan(o.trace, history, planned, n);
    forall p | |history| <= p < |o.trace| && o.trace[p].Enable?
      ensures o.trace[p] == Enable(FailpointName, arm)
    {
      ScriptEventPlanned(o.trace, history, planned, n, p);
      assert planned[p - |history|] == o.trace[p];
      assert p >= |history| + 2;
      assert planned[p - |history|] == ScriptEvents(plan)[p - |history| - 2];
    }
  }

  /** Every arming of the failpoint in a round uses the workload's action for the round's injection. */
  lemma RoundArms(v: Variant, t: Table, injection: string, server: Server, history: seq<Event>, results: Results)
    requires Formable(v, t)
    ensures var o := Round(v, t, injection, server, history, results);
      forall p :: |history| <= p < |o.trace| && o.trace[p].Enable? ==>
        o.trace[p] == Enable(FailpointName, FailpointValue(v, injection))
  {
    PlanArms(v, t, injection);
    RoundOfArms(PlanOf(v, t, injection), FailpointValue(v, injection), DropSql(t), CreateSql(t), t, injection,
                server, history, results);
  }

  /** A planned event that was sent, at its position in the trace. */
  lemma ScriptEventAt(trace: seq<Event>, history: seq<Event>, plan: Plan, dropSql: string, createSql: string,
                      n: int, p: int)
    requires FollowsPlan(trace, history, PlannedOf(plan, dropSql, createSql), n)
    requires |history| + 2 <= p < |history| + n
    ensures trace[p] == ScriptEvents(plan)[p - |history| - 2]
  {
    PlannedAt(trace, history, PlannedOf(plan, dropSql, createSql), n, p);
  }

  /** A statement or an arming in a round's trace is a planned script event that was sent. */
  lemma ScriptEventIn(trace: seq<Event>, history: seq<Event>, plan: Plan, dropSql: string, createSql: string,
                      n: int, p: int)
    requires FollowsPlan(trace, history, PlannedOf(plan, dropSql, createSql), n)
    requires |history| <= p < |trace| && (trace[p].Exec? || trace[p].Enable?)
    ensures |history| + 2 <= p < |history| + n && trace[p] == ScriptEvents(plan)[p - |history| - 2]
  {
    ScriptEventPlanned(trace, history, PlannedOf(plan, dropSql, createSql), n, p);
  }

  lemma RoundOfArmsFirst(plan: Plan, arm: string, dropSql: string, createSql: string, t: Table, injection: string,
                         server: Server, history: seq<Event>, results: Results)
    requires ArmsFirst(plan, arm)
    ensures var o := RoundOf(plan, dropSql, createSql, t, injection, server, history, results);
      forall p :: |history| <= p < |o.trace| && o.trace[p].Exec? ==>
        |history| + 2 < p && o.trace[|history| + 2] == Enable(FailpointName, arm)
  {
    var o := RoundOf(plan, dropSql, createSql, t, injection, server, history, results);
    RoundOfFollowsPlan(plan, dropSql, createSql, t, injection, server, history, results);
    var n :| FollowsPlan(o.trace, history, PlannedOf(plan, dropSql, createSql), n);
    forall p | |history| <= p < |o.trace| && o.trace[p].Exec?
      ensures |history| + 2 < p && o.trace[|history| + 2] == Enable(FailpointName, arm)
    {
      ScriptEventIn(o.trace, history, plan, dropSql, createSql, n, p);
      ScriptEventAt(o.trace, history, plan, dropSql, createSql, n, |history| + 2);
    }
  }

  /**
   * In every workload but T4, a round that sends any statement of its script
   * has armed the failpoint first, right after re-creating the table.
   */
  lemma ArmedBeforeScript(v: Variant, t: Table, injection: string, server: Server, history: seq<Event>,
                          results: Results)
    requires Formable(v, t) && v != T4
    ensures var o := Round(v, t, injection, server, history, results);
      forall p :: |history| <= p < |o.trace| && o.trace[p].Exec? ==>
        |history| + 2 < p && o.trace[|history| + 2] == Enable(FailpointName, FailpointValue(v, injection))
  {
    PlanArms(v, t, injection);
    RoundOfArmsFirst(PlanOf(v, t, injection), FailpointValue(v, injection), DropSql(t), CreateSql(t), t, injection,
                     server, history, results);
  }

  /**
   * In `trace` after `history`, the failpoint is armed only after the
   * insertion, its commit and a new `begin`, and the update comes right after
   * the arming.
   */
  predicate T4Order(trace: seq<Event>, history: seq<Event>, arm: string, insert: string, update: string) {
    && (forall p :: |history| <= p < |trace| && trace[p].Enable? ==>
          && |history| + 6 <= p
          && trace[p - 3] == Exec(insert)
          && trace[p - 2] == Exec("commit")
          && trace[p - 1] == Exec("begin optimistic"))
    && (forall q :: |history| + 1 <= q < |trace| && trace[q] == Exec(update) ==>
          trace[q - 1] == Enable(FailpointName, arm))
  }

  lemma T4TraceOrder(trace: seq<Event>, history: seq<Event>, arm: string, insert: string, update: string,
                     dropSql: string, createSql: string, n: int)
    requires update != insert && update != "commit" && update != "begin optimistic"
    requires FollowsPlan(trace, history, PlannedOf(T4Plan(arm, insert, update), dropSql, createSql), n)
    ensures T4Order(trace, history, arm, insert, update)
  {
    var plan := T4Plan(arm, insert, update);
    T4Events(arm, insert, update);
    forall p | |history| <= p < |trace| && trace[p].Enable?
      ensures |history| + 6 <= p
      ensures trace[p - 3] == Exec(insert)
      ensures trace[p - 2] == Exec("commit")
      ensures trace[p - 1] == Exec("begin optimistic")
    {
      ScriptEventIn(trace, history, plan, dropSql, createSql, n, p);
      ScriptEventAt(trace, history, plan, dropSql, createSql, n, p - 3);
      ScriptEventAt(trace, history, plan, dropSql, createSql, n, p - 2);
      ScriptEventAt(trace, history, plan, dropSql, createSql, n, p - 1);
    }
    forall q | |history| + 1 <= q < |trace| && trace[q] == Exec(update)
      ensures trace[q - 1] == Enable(FailpointName, arm)
    {
      ScriptEventIn(trace, history, plan, dropSql, createSql, n, q);
      ScriptEventAt(trace, history, plan, dropSql, createSql, n, q - 1);
    }
  }

  lemma T4OrderOf(arm: string, insert: string, update: string, dropSql: string, createSql: string, t: Table,
                  injection: string, server: Server, history: seq<Event>, results: Results)
    requires update != insert && update != "commit" && update != "begin optimistic"
    ensures T4Order(RoundOf(T4Plan(arm, insert, update), dropSql, createSql, t, injection, server, history, results).trace,
                    history, arm, insert, update)
  {
    var plan := T4Plan(arm, insert, update);
    var o := RoundOf(plan, dropSql, createSql, t, injection, server, history, results);
    RoundOfFollowsPlan(plan, dropSql, createSql, t, injection, server, history, results);
    var n :| FollowsPlan(o.trace, history, PlannedOf(plan, dropSql, createSql), n);
    T4TraceOrder(o.trace, history, arm, insert, update, dropSql, createSql, n);
  }

  /**
   * T4 arms the failpoint only inside its second transaction: after the
   * insertion, its commit and the second `begin`, and right before the update.
   */
  lemma T4ArmsBeforeUpdate(t: Table, injection: string, server: Server, history: seq<Event>, results: Results)
    requires |t.cols| >= 2
    ensures var row := NewRow(t.cols);
      T4Order(Round(T4, t, injection, server, history, results).trace, history, FailpointValue(T4, injection),
              InsertionSql(t, row), UpdateSql(t, row))
  {
    var row := NewRow(t.cols);
    var arm, insert, update := FailpointValue(T4, injection), InsertionSql(t, row), UpdateSql(t, row);
    assert update[0] == 'U' && insert[0] == 'I';
    var plan := T4Plan(arm, insert, update);
    assert PlanOf(T4, t, injection) == plan;
    var o := RoundOf(plan, DropSql(t), CreateSql(t), t, injection, server, history, results);
    assert Round(T4, t, injection, server, history, results).trace == o.trace;
    T4OrderOf(arm, insert, update, DropSql(t), CreateSql(t), t, injection, server, history, results);
  }


  lemma DoubleOf(arm: string, first: string, second: string, dropSql: string, createSql: string, t: Table,
                 injection: string, server: Server, history: seq<Event>, results: Results)
    requires Lower(first) != "commit" && Lower(second) != "commit"
    ensures var o := RoundOf(DoublePlan(arm, first, second), dropSql, createSql, t, injection, server, history, results);
      forall p :: |history| <= p < |o.trace| && o.trace[p].Exec? ==> Lower(o.trace[p].sql) != "commit"
  {
    var plan := DoublePlan(arm, first, second);
    var o := RoundOf(plan, dropSql, createSql, t, injection, server, history, results);
    RoundOfFollowsPlan(plan, dropSql, createSql, t, injection, server, history, results);
    var n :| FollowsPlan(o.trace, history, PlannedOf(plan, dropSql, createSql), n);
    DoubleEvents(arm, first, second);
    assert |Lower("BEGIN OPTIMISTIC")| != |"commit"|;
    forall p | |history| <= p < |o.trace| && o.trace[p].Exec?
      ensures Lower(o.trace[p].sql) != "commit"
    {
      ScriptEventIn(o.trace, history, plan, dropSql, createSql, n, p);
    }
  }

  /** The double insertion never commits: its transaction ends in a rollback, or stays open. */
  lemma DoubleNeverCommits(t: Table, injection: string, server: Server, history: seq<Event>, results: Results)
    ensures var o := Round(DoubleInsertion, t, injection, server, history, results);
      forall p :: |history| <= p < |o.trace| && o.trace[p].Exec? ==> Lower(o.trace[p].sql) != "commit"
  {
    var row := NewRow(t.cols);
    var first, second := InsertionSql(t, row), InsertionSql(t, NextRow(row));
    assert |Lower(first)| > 6 && |Lower(second)| > 6;
    DoubleOf(FailpointValue(DoubleInsertion, injection), first, second, DropSql(t), CreateSql(t), t, injection,
             server, history, results);
  }

  // ---------------------------------------------------------------------------
  // A whole workload run
  // ---------------------------------------------------------------------------

  function SetMutationCheckerSql(c: Config): string {
    "set @@tidb_enable_mutation_checker = " + c.mutationChecker
  }

  function SetAssertionLevelSql(c: Config): string {
    "set @@tidb_txn_assertion_level = " + c.assertion
  }

  /** The rounds for `injections`, in order, each starting where the previous one ended, up to the first that does not complete. */
  function Rounds(v: Variant, t: Table, injections: seq<string>, server: Server, start: Outcome): (o: Outcome)
    requires Formable(v, t)
  {
    if injections == [] then start
    else
      var o := Rounds(v, t, injections[..|injections| - 1], server, start);
      if o.status.Completed? then Round(v, t, injections[|injections| - 1], server, o.trace, o.results) else o
  }

  /** Taking a connection and setting the two session variables on it; the first refusal ends the run. */
  function Opening(c: Config, server: Server, history: seq<Event>, results: Results): (o: Outcome) {
    var set1, set2 := SetVariable(SetMutationCheckerSql(c)), SetVariable(SetAssertionLevelSql(c));
    var h1 := history + [Acquire];
    var h2 := h1 + [set1];
    var h3 := h2 + [set2];
    if server(history, Acquire).Err? then Outcome(Aborted(server(history, Acquire).message), h1, results)
    else if server(h1, set1).Err? then Outcome(Aborted(server(h1, set1).message), h2, results)
    else if server(h2, set2).Err? then Outcome(Aborted(server(h2, set2).message), h3, results)
    else Outcome(Completed, h3, results)
  }

  /** A workload run: a connection, the two session variables, then one round per injection. */
  function Workload(v: Variant, c: Config, t: Table, server: Server, history: seq<Event>, results: Results)
    : (o: Outcome)
    requires Formable(v, t)
  {
    var start := Opening(c, server, history, results);
    if start.status.Completed? then Rounds(v, t, AvailableInjections, server, start) else start
  }

  lemma RoundsSnoc(v: Variant, t: Table, injections: seq<string>, i: nat, server: Server, start: Outcome)
    requires Formable(v, t) && i < |injections|
    ensures var o := Rounds(v, t, injections[..i], server, start);
      Rounds(v, t, injections[..i + 1], server, start)
        == if o.status.Completed? then Round(v, t, injections[i], server, o.trace, o.results) else o
  {
    assert injections[..i + 1][..i] == injections[..i];
  }

  /** Once a round does not complete, no later round runs. */
  lemma {:induction false} RoundsStop(v: Variant, t: Table, injections: seq<string>, j: nat, server: Server, start: Outcome)
    requires Formable(v, t) && j <= |injections|
    requires !Rounds(v, t, injections[..j], server, start).status.Completed?
    ensures Rounds(v, t, injections, server, start) == Rounds(v, t, injections[..j], server, start)
    decreases |injections|
  {
    if j == |injections| {
      assert injections[..j] == injections;
    } else {
      var init := injections[..|injections| - 1];
      assert init[..j] == injections[..j];
      RoundsStop(v, t, init, j, server, start);
    }
  }

  /** The result keys of table `t` for `injections`. */
  function InjectionKeys(t: Table, injections: seq<string>): set<Key> {
    set injection | injection in injections :: Key(t, WorkloadColumn, injection)
  }

  lemma InjectionKeysSnoc(t: Table, injections: seq<string>, last: string)
    ensures InjectionKeys(t, injections + [last]) == InjectionKeys(t, injections) + {Key(t, WorkloadColumn, last)}
  {
    var all := injections + [last];
    forall k | k in InjectionKeys(t, all)
      ensures k in InjectionKeys(t, injections) + {Key(t, WorkloadColumn, last)}
    {
      var injection :| injection in all && k == Key(t, WorkloadColumn, injection);
      assert injection in injections || injection == last;
    }
  }

  /** The keys of a non-empty list of injections: those of all but the last, and the last one's. */
  lemma InjectionKeysInit(t: Table, injections: seq<string>)
    requires |injections| > 0
    ensures var n := |injections| - 1;
      InjectionKeys(t, injections) == InjectionKeys(t, injections[..n]) + {Key(t, WorkloadColumn, injections[n])}
  {
    var n := |injections| - 1;
    assert injections[..n] + [injections[n]] == injections;
    InjectionKeysSnoc(t, injections[..n], injections[n]);
  }

  /** A round keeps the events before it. */
  lemma RoundExtends(v: Variant, t: Table, injection: string, server: Server, history: seq<Event>, results: Results)
    requires Formable(v, t)
    ensures var o := Round(v, t, injection, server, history, results);
      |o.trace| >= |history| && o.trace[..|history|] == history
  {
    var o := Round(v, t, injection, server, history, results);
    RoundFollowsPlan(v, t, injection, server, history, results);
    var n :| FollowsPlan(o.trace, history, Planned(v, t, injection), n);
    assert o.trace[..|history|] == o.trace[..|history| + n][..|history|];
  }

  /** The rounds keep the events before them. */
  lemma {:induction false} RoundsExtend(v: Variant, t: Table, injections: seq<string>, server: Server, start: Outcome)
    requires Formable(v, t)
    ensures var o := Rounds(v, t, injections, server, start);
      |o.trace| >= |start.trace| && o.trace[..|start.trace|] == start.trace
    decreases |injections|
  {
    if injections != [] {
      var init := injections[..|injections| - 1];
      var o := Rounds(v, t, init, server, start);
      RoundsExtend(v, t, init, server, start);
      if o.status.Completed? {
        var last := injections[|injections| - 1];
        var o' := Round(v, t, last, server, o.trace, o.results);
        RoundExtends(v, t, last, server, o.trace, o.results);
        assert o'.trace[..|start.trace|] == o'.trace[..|o.trace|][..|start.trace|];
      }
    }
  }

  /** `after` holds `before`'s entries outside `keys` unchanged, and entries for `keys` besides. */
  predicate Recorded(before: Results, after: Results, keys: set<Key>) {
    && after.Keys == before.Keys + keys
    && forall k :: k in before && k !in keys ==> after[k] == before[k]
  }

  lemma RecordedChain(r0: Results, r1: Results, r2: Results, keys: set<Key>, more: set<Key>)
    requires Recorded(r0, r1, keys) && Recorded(r1, r2, more)
    ensures Recorded(r0, r2, keys + more)
  {
  }

  /** A completed round records its own key. */
  lemma RoundRecords(v: Variant, t: Table, injection: string, server: Server, history: seq<Event>, results: Results)
    requires Formable(v, t)
    ensures var o := Round(v, t, injection, server, history, results);
      o.status.Completed? ==> Recorded(results, o.results, {Key(t, WorkloadColumn, injection)})
  {
    if Round(v, t, injection, server, history, results).status.Completed? {
      CompletedRound(v, t, injection, server, history, results);
    }
  }

  /**
   * Rounds that all completed record one result per injection, under the
   * table's keys, and leave every other entry as it was.
   */
  lemma {:induction false} RoundsRecordInjections(v: Variant, t: Table, injections: seq<string>, server: Server,
                                                  start: Outcome)
    requires Formable(v, t)
    ensures var o := Rounds(v, t, injections, server, start);
      o.status.Completed? ==> Recorded(start.results, o.results, InjectionKeys(t, injections))
    decreases |injections|
  {
    if injections == [] {
      assert InjectionKeys(t, injections) == {};
    } else {
      var init := injections[..|injections| - 1];
      var last := injections[|injections| - 1];
      var o := Rounds(v, t, init, server, start);
      if o.status.Completed? {
        RoundsRecordInjections(v, t, init, server, start);
        InjectionKeysInit(t, injections);
        var o' := Round(v, t, last, server, o.trace, o.results);
        RoundRecords(v, t, last, server, o.trace, o.results);
        if o'.status.Completed? {
          RecordedChain(start.results, o.results, o'.results, InjectionKeys(t, init), {Key(t, WorkloadColumn, last)});
        }
      }
    }
  }

  /**
   * The opening sends the connection request and then the two settings, up
   * to the first one refused, and records nothing; it completes when all
   * three are accepted, and otherwise ends with the refusal's message.
   */
  lemma OpeningSends(c: Config, server: Server, history: seq<Event>, results: Results)
    ensures var o := Opening(c, server, history, results);
      var all := history + [Acquire, SetVariable(SetMutationCheckerSql(c)), SetVariable(SetAssertionLevelSql(c))];
      && |history| < |o.trace| <= |all| && o.trace == all[..|o.trace|] && o.results == results
      && (forall i :: |history| <= i < |o.trace| - 1 ==> server(all[..i], all[i]).Ok?)
      && (o.status.Completed? ==> o.trace == all && server(all[..|all| - 1], all[|all| - 1]).Ok?)
      && (!o.status.Completed? ==>
            var reply := server(o.trace[..|o.trace| - 1], o.trace[|o.trace| - 1]);
            reply.Err? && o.status == Aborted(reply.message))
  {
    var o := Opening(c, server, history, results);
    var all := history + [Acquire, SetVariable(SetMutationCheckerSql(c)), SetVariable(SetAssertionLevelSql(c))];
    assert all == history + [Acquire] + [SetVariable(SetMutationCheckerSql(c))] + [SetVariable(SetAssertionLevelSql(c))];
    assert all[..|history| + 1] == history + [Acquire];
    assert all[..|history| + 2] == history + [Acquire] + [SetVariable(SetMutationCheckerSql(c))];
    assert all[..|history|] == history;
  }

  /** A workload run starts with taking a connection and setting the two session variables, in that order. */
  lemma WorkloadOpens(v: Variant, c: Config, t: Table, server: Server, history: seq<Event>, results: Results)
    requires Formable(v, t)
    ensures var o := Workload(v, c, t, server, history, results);
      && |o.trace| > |history| && o.trace[..|history| + 1] == history + [Acquire]
      && (|o.trace| > |history| + 1 ==> o.trace[|history| + 1] == SetVariable(SetMutationCheckerSql(c)))
      && (|o.trace| > |history| + 2 ==> o.trace[|history| + 2] == SetVariable(SetAssertionLevelSql(c)))
  {
    var start := Opening(c, server, history, results);
    var all := history + [Acquire, SetVariable(SetMutationCheckerSql(c)), SetVariable(SetAssertionLevelSql(c))];
    OpeningSends(c, server, history, results);
    var o := Workload(v, c, t, server, history, results);
    if start.status.Completed? {
      RoundsExtend(v, t, AvailableInjections, server, start);
      assert o.trace[..|all|] == all;
      assert o.trace[..|history| + 1] == all[..|history| + 1];
      assert o.trace[|history| + 1] == all[|history| + 1];
      assert o.trace[|history| + 2] == all[|history| + 2];
    } else {
      assert o.trace[..|history| + 1] == all[..|history| + 1];
    }
  }

  /**
   * A workload run that completed recorded exactly one result for each of
   * the four injections against its table, and changed no other entry.
   */
  lemma WorkloadRecordsEveryInjection(v: Variant, c: Config, t: Table, server: Server, history: seq<Event>,
                                      results: Results)
    requires Formable(v, t)
    ensures var o := Workload(v, c, t, server, history, results);
      o.status.Completed? ==> Recorded(results, o.results, InjectionKeys(t, AvailableInjections))
  {
    var start := Opening(c, server, history, results);
    OpeningSends(c, server, history, results);
    RoundsRecordInjections(v, t, AvailableInjections, server, start);
  }

  /** The four injections give four distinct keys. */
  lemma FourKeys(t: Table)
    ensures |InjectionKeys(t, AvailableInjections)| == 4
  {
    var keys := InjectionKeys(t, AvailableInjections);
    assert keys == {Key(t, WorkloadColumn, "extraIndex"), Key(t, WorkloadColumn, "missingIndex"),
                    Key(t, WorkloadColumn, "corruptIndexKey"), Key(t, WorkloadColumn, "corruptIndexValue")};
  }

  /** `pool.acquire()` and `enable_featuers`: the connection and the two session variables. */
  method EnableFeatures(c: Config, server: Server, history: seq<Event>, results: Results) returns (o: Outcome)
    ensures o == Opening(c, server, history, results)
  {
    var trace := history;
    var reply := server(trace, Acquire);
    trace := trace + [Acquire];
    if reply.Err? {
      return Outcome(Aborted(reply.message), trace, results);
    }
    var setting := SetVariable(SetMutationCheckerSql(c));
    reply := server(trace, setting);
    trace := trace + [setting];
    if reply.Err? {
      return Outcome(Aborted(reply.message), trace, results);
    }
    setting := SetVariable(SetAssertionLevelSql(c));
    reply := server(trace, setting);
    trace := trace + [setting];
    if reply.Err? {
      return Outcome(Aborted(reply.message), trace, results);
    }
    o := Outcome(Completed, trace, results);
  }

  /** The loop over `injections`, from an opening that completed; it ends early when a round does not complete. */
  method RunRounds(v: Variant, t: Table, injections: seq<string>, dropSql: string, createSql: string, server: Server,
                   start: Outcome) returns (o: Outcome)
    requires Formable(v, t) && start.status.Completed?
    requires dropSql == DropSql(t) && createSql == CreateSql(t)
    ensures o == Rounds(v, t, injections, server, start)
  {
    o := start;
    var i := 0;
    while i < |injections|
      invariant 0 <= i <= |injections|
      invariant o == Rounds(v, t, injections[..i], server, start)
      invariant o.status.Completed?
    {
      RoundsSnoc(v, t, injections, i, server, start);
      o := RunRound(v, t, injections[i], dropSql, createSql, server, o.trace, o.results);
      if !o.status.Completed? {
        RoundsStop(v, t, injections, i + 1, server, start);
        return;
      }
      i := i + 1;
    }
    assert injections[..i] == injections;
  }

  /** `execute` of a workload: the opening, then one round per injection. */
  method Execute(v: Variant, c: Config, t: Table, server: Server, history: seq<Event>, results: Results)
    returns (o: Outcome)
    requires Formable(v, t)
    ensures o == Workload(v, c, t, server, history, results)
  {
    var start := EnableFeatures(c, server, history, results);
    if !start.status.Completed? {
      return start;
    }
    var createSql := CreateStatement(t);
    o := RunRounds(v, t, AvailableInjections, DropSql(t), createSql, server, start);
  }
}
