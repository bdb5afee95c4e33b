/** The day-grant transactions as the service carries them out, row by row on mutable tables. */
module GrantStore {
  import opened Common
  import opened Workspaces
  import opened DayGrants

  class Store {
    var tables: Tables
    var receipts: map<CommandId, Receipt>
    var grants: seq<Grant>
    var outbox: seq<EntitlementEvent>
    var nextSequence: nat

    constructor (rows: Tables)
      requires DistinctPeriods(rows.periods) && GraceMatches(rows)
      ensures Valid() && tables == rows && receipts == map[] && grants == []
    {
      tables, receipts, grants, outbox, nextSequence := rows, map[], [], [], 1;
    }

    ghost function View(): State
      reads this
    {
      State(tables, receipts, grants, outbox, nextSequence)
    }

    ghost predicate Valid()
      reads this
    {
      Inv(View())
    }

    /** Takes the next sequence number and version, marks the current period and announces the change. */
    method EnqueueEntitlementChanged(w: WorkspaceId, now: int)
      modifies this`tables, this`outbox, this`nextSequence
      ensures View() == Enqueue(old(View()), w, now)
    {
      if w !in tables.entitlements {
        return;
      }
      var base := tables.entitlements[w];
      var period := Latest(tables.periods, w, Some(now));
      var sequence := nextSequence;
      nextSequence := nextSequence + 1;
      var version := base.version + 1;
      if w in tables.accounts && tables.accounts[w].version > base.version {
        version := tables.accounts[w].version;
      }
      tables := tables.(entitlements := tables.entitlements[w := base.(version := version, sequence := sequence)]);
      if period.Some? && !period.value.notified {
        tables := tables.(periods := ReplacePeriod(tables.periods, period.value.(notified := true)));
      }
      outbox := outbox + [EntitlementEvent(w, version, sequence)];
    }

    /** Adds the days of a command once; a retry gets the answer of the first call. */
    method ExtendDaysOf(c: Command, now: int) returns (outcome: Outcome)
      requires Valid()
      modifies this
      ensures Valid()
      ensures (outcome, View()) == Extend(old(View()), c, now)
    {
      hide Extended, Enqueue, Inv, AnswerExtend;
      StepKeeps(View(), ExtendRequested(c, now));
      if c.expectedActor != c.actor {
        return Refused(ActorChanged);
      }
      if c.periodId.None? != c.periodVersion.None? {
        return Refused(Malformed);
      }
      var prior := AnswerFromReceipt(c);
      if prior.Some? {
        return prior.value;
      }
      var result := Extended(tables, c, now);
      if result.Err? {
        return Refused(result.error);
      }
      tables := result.value.0;
      EnqueueEntitlementChanged(c.workspace, now);
      grants := grants + [result.value.1];
      receipts := receipts[c.id := Receipt(ExtendDays, c.hash, 1, c.workspace, c.id, c.actor)];
      return Committed;
    }

    method AnswerFromReceipt(c: Command) returns (answer: Option<Outcome>)
      ensures answer == AnswerExtend(View(), c)
    {
      if c.id !in receipts {
        return None;
      }
      var prior := receipts[c.id];
      if prior.kind == CancelExtend {
        if prior.workspace != c.workspace || prior.actor != c.actor {
          return Some(Refused(CommandConflict));
        }
        return Some(Refused(AlreadyCancelled));
      }
      if prior.kind != ExtendDays || prior.hashVersion != 1 || prior.hash != c.hash {
        return Some(Refused(CommandConflict));
      }
      return Some(Committed);
    }

    /** Cancels a command that has not been carried out; a command that has been keeps its outcome. */
    method CancelDaysOf(c: Command) returns (outcome: Outcome)
      requires Valid()
      modifies this`receipts
      ensures Valid()
      ensures (outcome, View()) == Cancel(old(View()), c)
    {
      hide Inv;
      StepKeeps(View(), CancelRequested(c));
      if c.expectedActor != c.actor {
        return Refused(ActorChanged);
      }
      if c.id in receipts {
        var prior := receipts[c.id];
        if prior.workspace != c.workspace || prior.command != c.id || prior.kind == OtherCommand || prior.actor != c.actor {
          return Refused(CommandConflict);
        }
        if prior.kind == ExtendDays {
          return Committed;
        }
        if prior.hashVersion != 1 || prior.hash != c.hash {
          return Refused(CommandConflict);
        }
        return Cancelled;
      }
      if c.workspace !in tables.entitlements {
        return Refused(NotProvisioned);
      }
      receipts := receipts[c.id := Receipt(CancelExtend, c.hash, 1, c.workspace, c.id, c.actor)];
      return Cancelled;
    }
  }
}
