/**
 * The `/autobet` plugin: a per-user table of recurring bets and a registry of repeating jobs,
 * one per user, named after the plugin and the user id. Each job tick hands its saved
 * arguments to the `/bet` plugin.
 */
module Autobet {
  import opened Wrappers
  import opened Text
  import opened Amounts
  import BetRules

  /** `get_name()` of this plugin, the prefix of its job names. */
  const PluginName: string := "autobet"

  /** The name of a user's auto-bet job: `get_name() + str(usr_id)`; the user id reads back from behind the prefix. */
  function JobName(userId: int): (r: string)
    ensures |r| > |PluginName| && r[..|PluginName|] == PluginName
    ensures ParseInt(r[|PluginName|..]) == Some(userId)
  {
    IntToStringRoundTrip(userId);
    var r := PluginName + IntToString(userId);
    assert r[|PluginName|..] == IntToString(userId);
    r
  }

  /** Distinct users have distinct job names, so removing one user's job leaves the others. */
  lemma JobNameInjective(a: int, b: int)
    ensures JobName(a) == JobName(b) <==> a == b
  {
  }

  function JobNames(ids: set<int>): set<string> {
    set id | id in ids :: JobName(id)
  }

  /** Removing a user's row and that user's job keeps every job owned by a row. */
  lemma JobsAfterRemoval<R, J>(jobs: map<string, J>, table: map<int, R>, userId: int)
    requires jobs.Keys <= JobNames(table.Keys)
    ensures (jobs - {JobName(userId)}).Keys <= JobNames((table - {userId}).Keys)
  {
    forall name | name in (jobs - {JobName(userId)}).Keys ensures name in JobNames((table - {userId}).Keys) {
      var id :| id in table && JobName(id) == name;
      JobNameInjective(id, userId);
    }
  }

  /** A user without a row has no job, and adding both keeps every job owned by a row. */
  lemma JobsAfterInsertion<R, J>(jobs: map<string, J>, table: map<int, R>, userId: int, row: R, job: J)
    requires jobs.Keys <= JobNames(table.Keys) && userId !in table
    ensures JobName(userId) !in jobs
    ensures jobs[JobName(userId) := job].Keys <= JobNames(table[userId := row].Keys)
  {
  }

  /** The chat update that issued the command; it is stored with the row and replayed by every tick. */
  datatype Update = Update(userId: int, chatId: int, messageId: int, caption: string)

  /** One row of the `autobet` table. */
  datatype AutobetRow = AutobetRow(chars: string, amount: string, update: Update)

  /** A repeating job: its context, its interval and its first delay (None: the job queue's default). */
  datatype Job = Job(chars: string, amount: string, update: Update, interval: int, firstDelay: Option<nat>)

  /** The job of user `id` runs the stored row's bet at `interval`, first after `delay` seconds. */
  predicate ArmedAsStored(jobs: map<string, Job>, table: map<int, AutobetRow>, id: int, interval: int, delay: nat)
    requires id in table
  {
    JobName(id) in jobs &&
    jobs[JobName(id)] == Job(table[id].chars, table[id].amount, table[id].update, interval, Some(delay))
  }

  datatype Command = Stop | ShowUsage | RejectAmount | Enable(chars: string, amount: string)

  /** How `execute` reads its arguments. */
  function ParseCommand(args: seq<string>): (c: Command)
    ensures c.Stop? <==>
      |args| == 1 && |args[0]| == 4 && args[0][0] in "sS" && args[0][1] in "tT" && args[0][2] in "oO" && args[0][3] in "pP"
    ensures c.ShowUsage? <==> !c.Stop? && |args| != 2
    ensures c.RejectAmount? <==> |args| == 2 && ParseAmount(args[1]).None?
    ensures c.Enable? ==> |args| == 2 && c.chars == args[0] && c.amount == args[1] && ParseAmount(args[1]).Some?
  {
    LowerIsStop(if args == [] then "" else args[0]);
    if |args| == 1 && Lower(args[0]) == "stop" then Stop
    else if |args| != 2 then ShowUsage
    else if ParseAmount(args[1]).None? then RejectAmount
    else Enable(args[0], args[1])
  }

  datatype Reply = Stopped | NotActive | Usage | BadAmount | Updated | Started

  class AutobetPlugin {
    var table: map<int, AutobetRow>
    var jobs: map<string, Job>

    /** Every job belongs to a user who has a row. */
    ghost predicate Valid()
      reads this
    {
      jobs.Keys <= JobNames(table.Keys)
    }

    constructor (table: map<int, AutobetRow>)
      ensures this.table == table && jobs == map[] && Valid()
    {
      this.table := table;
      jobs := map[];
    }

    /**
     * `__enter__`: arm one repeating job per stored row, with a first delay drawn from [0, 60);
     * if the rows cannot be read, notify the operator and arm none.
     */
    method Enter(readOk: bool, interval: int, randomDelay: int -> nat) returns (notified: bool)
      requires jobs == map[]
      requires forall id :: randomDelay(id) < 60
      modifies this
      ensures table == old(table) && Valid()
      ensures notified <==> !readOk
      ensures !readOk ==> jobs == map[]
      ensures readOk ==> jobs.Keys == JobNames(table.Keys)
      ensures readOk ==> forall id :: id in table ==> ArmedAsStored(jobs, table, id, interval, randomDelay(id))
    {
      notified := !readOk;
      if !readOk {
        return;
      }
      var todo := table.Keys;
      while todo != {}
        invariant table == old(table)
        invariant todo <= table.Keys
        invariant jobs.Keys == JobNames(table.Keys - todo)
        invariant forall id :: id in table.Keys - todo ==> ArmedAsStored(jobs, table, id, interval, randomDelay(id))
        decreases todo
      {
        assert exists id :: id in todo by {
          if forall id :: id !in todo {
            assert false;
          }
        }
        var id :| id in todo;
        forall other | other in table.Keys - todo ensures JobName(other) != JobName(id) {
          JobNameInjective(other, id);
        }
        jobs := jobs[JobName(id) := Job(table[id].chars, table[id].amount, table[id].update, interval, Some(randomDelay(id)))];
        todo := todo - {id};
      }
    }

    /** `execute`: stop, update the row in place, or insert a row and arm its job. */
    method Execute(update: Update, args: seq<string>, interval: int) returns (reply: Reply)
      requires Valid()
      modifies this
      ensures Valid()
      ensures var userId := update.userId;
        match ParseCommand(args)
        case Stop =>
          if userId in old(table) then
            reply == Stopped && table == old(table) - {userId} && jobs == old(jobs) - {JobName(userId)}
          else
            reply == NotActive && table == old(table) && jobs == old(jobs)
        case ShowUsage => reply == Usage && table == old(table) && jobs == old(jobs)
        case RejectAmount => reply == BadAmount && table == old(table) && jobs == old(jobs)
        case Enable(chars, amount) =>
          var stored := update.(caption := PluginName);
          table == old(table)[userId := AutobetRow(chars, amount, stored)] &&
          if userId in old(table) then
            reply == Updated && jobs == old(jobs)
          else
            && reply == Started
            && JobName(userId) !in old(jobs)
            && jobs == old(jobs)[JobName(userId) := Job(chars, amount, stored, interval, None)]
    {
      var userId := update.userId;
      var command := ParseCommand(args);
      if command.Stop? {
        if userId in table {
          JobsAfterRemoval(jobs, table, userId);
          table := table - {userId};
          jobs := jobs - {JobName(userId)};
          reply := Stopped;
        } else {
          reply := NotActive;
        }
        return;
      }
      if command.ShowUsage? {
        reply := Usage;
        return;
      }
      if command.RejectAmount? {
        reply := BadAmount;
        return;
      }
      var stored := update.(caption := PluginName);
      if userId in table {
        table := table[userId := AutobetRow(command.chars, command.amount, stored)];
        reply := Updated;
        return;
      }
      JobsAfterInsertion(jobs, table, userId, AutobetRow(command.chars, command.amount, stored),
                         Job(command.chars, command.amount, stored, interval, None));
      table := table[userId := AutobetRow(command.chars, command.amount, stored)];
      jobs := jobs[JobName(userId) := Job(command.chars, command.amount, stored, interval, None)];
      reply := Started;
    }
  }

  /**
   * `auto_bet`: hand the saved arguments to the first plugin named "bet". That plugin takes
   * exactly one argument, so every tick ends in its usage reply and no bet is placed.
   */
  method AutoBet(plugins: seq<string>, job: Job) returns (called: Option<nat>, request: Option<BetRules.BetRequest>)
    ensures called.Some? <==> "bet" in plugins
    ensures called.Some? ==> called.value < |plugins| && plugins[called.value] == "bet" && "bet" !in plugins[..called.value]
    ensures request.Some? <==> called.Some?
    ensures request.Some? ==> request.value == BetRules.ValidateArgs([job.chars, job.amount])
    ensures request.Some? ==> request.value == BetRules.Usage
  {
    called, request := None, None;
    var i := 0;
    while i < |plugins|
      invariant 0 <= i <= |plugins|
      invariant "bet" !in plugins[..i]
    {
      if plugins[i] == "bet" {
        called := Some(i);
        request := Some(BetRules.ValidateArgs([job.chars, job.amount]));
        return;
      }
      assert plugins[..i + 1] == plugins[..i] + [plugins[i]];
      i := i + 1;
    }
    assert plugins[..|plugins|] == plugins;
  }
}
