/** Properties of the deprovisioning run modelled in module Monitor: which members
    are touched, which calls are issued, in which order, and when an email is sent. */
module MonitorProperties {
  import opened Wrappers
  import opened Util
  import opened Settings
  import opened Monitor

  // ---------------------------------------------------------------------------
  // Shared id (lines 63-66)

  /** The first persistent identity supplies the shared id; later ones are ignored. */
  lemma {:induction false} SharedIdIsFirstPersistent(identities: seq<Identity>, i: nat)
    requires i < |identities| && identities[i].typeId == "persistent"
    requires forall j :: 0 <= j < i ==> identities[j].typeId != "persistent"
    ensures SharedId(identities) == Some(identities[i].value)
  {
    if i > 0 {
      SharedIdIsFirstPersistent(identities[1..], i - 1);
    }
  }

  /** Without a persistent identity the shared id stays unset, and only then. */
  lemma {:induction false} SharedIdUnsetIff(identities: seq<Identity>)
    ensures SharedId(identities).None? <==>
              forall i :: 0 <= i < |identities| ==> identities[i].typeId != "persistent"
    decreases |identities|
  {
    if identities != [] {
      SharedIdUnsetIff(identities[1..]);
      assert forall i :: 1 <= i < |identities| ==> identities[i] == identities[1..][i - 1];
    }
  }

  // ---------------------------------------------------------------------------
  // Discovery (lines 55-62)

  /** Discovery fails exactly when some member's entity cannot be fetched, or is
      disabled but lacks the `scheduledOperation` key. */
  lemma {:induction false} DiscoverySucceedsIff(members: seq<string>, entities: map<string, Entity>)
    ensures Candidates(members, entities).failure.None? <==>
              forall m :: m in members ==>
                m in entities && (entities[m].state == "disabled" ==> entities[m].scheduledOperation.Some?)
    decreases |members|
  {
    if members != [] {
      var init, last := members[..|members| - 1], members[|members| - 1];
      assert members == init + [last];
      DiscoverySucceedsIff(init, entities);
    }
  }

  /** A member yields a user exactly when its entity is disabled and not already
      scheduled for removal; the user carries the member's id and shared id. */
  lemma {:induction false} CandidatesAreTheDisabledMembers(members: seq<string>, entities: map<string, Entity>)
    ensures forall u :: u in Candidates(members, entities).done ==>
              u.internalId in members && u.internalId in entities &&
              IsCandidate(entities[u.internalId]) &&
              u.sharedId == SharedId(entities[u.internalId].identities)
    ensures Candidates(members, entities).failure.None? ==>
              forall m :: m in members ==>
                m in entities &&
                (IsCandidate(entities[m]) <==> User(m, SharedId(entities[m].identities)) in Candidates(members, entities).done)
    decreases |members|
  {
    if members != [] {
      var init, last := members[..|members| - 1], members[|members| - 1];
      assert members == init + [last];
      CandidatesAreTheDisabledMembers(init, entities);
      var before := Candidates(init, entities);
      assert Candidates(members, entities) == before.Then(Classify(last, entities));
      if before.failure.None? && last in entities {
        var e := entities[last];
        if IsCandidate(e) && e.scheduledOperation.Some? {
          assert Classify(last, entities).done == [User(last, SharedId(e.identities))];
        }
      }
    }
  }

  /** Users keep the membership order: discovering `xs + ys` is discovering `xs`, then `ys`. */
  lemma CandidatesKeepOrder(xs: seq<string>, ys: seq<string>, entities: map<string, Entity>)
    requires Candidates(xs, entities).failure.None?
    ensures Candidates(xs + ys, entities).done == Candidates(xs, entities).done + Candidates(ys, entities).done
  {
    CandidatesAppend(xs, ys, entities);
  }

  // ---------------------------------------------------------------------------
  // Attribute removal (lines 76-86)

  /** Reference definition: one removal per removable attribute, in attribute order. */
  function Planned(id: string, attrs: seq<Attr>, whitelist: Value): seq<Action>
    decreases |attrs|
  {
    if attrs == [] then [] else PlannedFor(id, attrs[0], whitelist) + Planned(id, attrs[1..], whitelist)
  }

  function PlannedFor(id: string, a: Attr, whitelist: Value): seq<Action> {
    if Removable(a, whitelist) && a.email.Some? then [RemoveAttr(id, a.name.value, a.email.value)] else []
  }

  lemma {:induction false} PlannedAppend(id: string, xs: seq<Attr>, ys: seq<Attr>, whitelist: Value)
    ensures Planned(id, xs + ys, whitelist) == Planned(id, xs, whitelist) + Planned(id, ys, whitelist)
    decreases |xs|
  {
    if xs == [] {
      assert xs + ys == ys;
    } else {
      assert (xs + ys)[0] == xs[0];
      assert (xs + ys)[1..] == xs[1..] + ys;
      PlannedAppend(id, xs[1..], ys, whitelist);
    }
  }

  /** In a live run that does not fail, the calls issued for an entity are exactly
      one `remove_entity_attr` per removable attribute, in fetch order, and every
      removable attribute had an email. */
  lemma {:induction false} RemovalsArePlanned(s: Config, id: string, attrs: seq<Attr>)
    requires !s.dryRun && Removals(s, id, attrs).failure.None?
    ensures Removals(s, id, attrs).done == Planned(id, attrs, s.attrWhitelist)
    ensures forall a :: a in attrs && Removable(a, s.attrWhitelist) ==> a.email.Some?
    decreases |attrs|
  {
    if attrs != [] {
      var init, last := attrs[..|attrs| - 1], attrs[|attrs| - 1];
      assert attrs == init + [last];
      RemovalsArePlanned(s, id, init);
      PlannedAppend(id, init, [last], s.attrWhitelist);
      assert Planned(id, [last], s.attrWhitelist) == PlannedFor(id, last, s.attrWhitelist);
      assert PlannedFor(id, last, s.attrWhitelist) == RemovalStep(s, id, last).done;
    }
  }

  /** Removal of an entity's attributes fails exactly when the whitelist cannot be
      searched for some named attribute, or a removable attribute lacks an email. */
  lemma {:induction false} RemovalsSucceedIff(s: Config, id: string, attrs: seq<Attr>)
    ensures Removals(s, id, attrs).failure.None? <==>
              forall a :: a in attrs ==>
                (a.name.Some? ==> NotWhitelisted(a.name.value, s.attrWhitelist).Ok?) &&
                (!s.dryRun && Removable(a, s.attrWhitelist) ==> a.email.Some?)
    decreases |attrs|
  {
    if attrs != [] {
      var init, last := attrs[..|attrs| - 1], attrs[|attrs| - 1];
      assert attrs == init + [last];
      RemovalsSucceedIff(s, id, init);
    }
  }

  /** A dry run issues no `remove_entity_attr` call. */
  lemma {:induction false} RemovalsDryRun(s: Config, id: string, attrs: seq<Attr>)
    requires s.dryRun
    ensures Removals(s, id, attrs).done == []
    decreases |attrs|
  {
    if attrs != [] {
      RemovalsDryRun(s, id, attrs[..|attrs| - 1]);
    }
  }

  /** A dry run strips an entity without failure wherever a live run does: it
      skips the `email` key a live run needs, and reads everything else alike. */
  lemma {:induction false} RemovalsDryRunFailsOnlyIfLive(s: Config, id: string, attrs: seq<Attr>)
    ensures Removals(s.(dryRun := false), id, attrs).failure.None? ==>
              Removals(s.(dryRun := true), id, attrs).failure.None?
    decreases |attrs|
  {
    if attrs != [] {
      RemovalsDryRunFailsOnlyIfLive(s, id, attrs[..|attrs| - 1]);
    }
  }

  /** Every call issued while stripping an entity is a removal from that entity. */
  lemma {:induction false} RemovalsOnlyRemove(s: Config, id: string, attrs: seq<Attr>)
    ensures forall act :: act in Removals(s, id, attrs).done ==> act.RemoveAttr? && act.entity == id
    decreases |attrs|
  {
    if attrs != [] {
      RemovalsOnlyRemove(s, id, attrs[..|attrs| - 1]);
    }
  }

  /** With the default (empty) whitelist no attribute is exempt: a named, fully
      visible attribute is removable. */
  lemma EmptyWhitelistExemptsNothing(a: Attr)
    ensures Removable(a, DefaultAttrWhitelist) <==> a.name.Some? && a.visibility == "full"
  {
  }

  // ---------------------------------------------------------------------------
  // Processing (lines 68-70, 89-95)

  /** The internal ids of `users`, in order. */
  function Ids(users: seq<User>): seq<string>
    decreases |users|
  {
    if users == [] then [] else Ids(users[..|users| - 1]) + [users[|users| - 1].internalId]
  }

  /** The entities of the `schedule_operation` calls among `actions`, in order. */
  function ScheduledEntities(actions: seq<Action>): seq<string>
    decreases |actions|
  {
    if actions == [] then []
    else
      var last := actions[|actions| - 1];
      ScheduledEntities(actions[..|actions| - 1]) + (if last.Schedule? then [last.entity] else [])
  }

  lemma {:induction false} ScheduledEntitiesAppend(xs: seq<Action>, ys: seq<Action>)
    ensures ScheduledEntities(xs + ys) == ScheduledEntities(xs) + ScheduledEntities(ys)
    decreases |ys|
  {
    if ys == [] {
      assert xs + ys == xs;
    } else {
      var init := ys[..|ys| - 1];
      assert (xs + ys)[..|xs + ys| - 1] == xs + init;
      assert (xs + ys)[|xs + ys| - 1] == ys[|ys| - 1];
      ScheduledEntitiesAppend(xs, init);
    }
  }

  lemma {:induction false} NoScheduleAmongRemovals(actions: seq<Action>)
    requires forall act :: act in actions ==> act.RemoveAttr?
    ensures ScheduledEntities(actions) == []
    decreases |actions|
  {
    if actions != [] {
      assert actions[|actions| - 1] in actions;
      NoScheduleAmongRemovals(actions[..|actions| - 1]);
    }
  }

  /** Everything the run does for one user, in a live run that does not fail: its
      attribute removals, then its single `schedule_operation`. */
  lemma UserStepsOrder(s: Config, u: User, attrsOf: map<string, seq<Attr>>, now: int)
    requires !s.dryRun && UserSteps(s, u, attrsOf, now).failure.None?
    ensures u.internalId in attrsOf
    ensures UserSteps(s, u, attrsOf, now).done ==
              Removals(s, u.internalId, attrsOf[u.internalId]).done +
              [Schedule(u.internalId, "REMOVE", DueAt(now, RetentionDays(s.retentionPeriod).value))]
  {
  }

  /** Users are handled one after the other: whatever is done for `u` comes after
      everything done for the users before it and before anything for the users after it. */
  lemma ProcessingPerUser(s: Config, before: seq<User>, u: User, after: seq<User>,
                          attrsOf: map<string, seq<Attr>>, now: int)
    requires Processing(s, before + [u] + after, attrsOf, now).failure.None?
    ensures Processing(s, before + [u] + after, attrsOf, now).done ==
              Processing(s, before, attrsOf, now).done + UserSteps(s, u, attrsOf, now).done +
              Processing(s, after, attrsOf, now).done
  {
    ProcessingAppend(s, before + [u], after, attrsOf, now);
    ProcessingAppend(s, before, [u], attrsOf, now);
    assert Processing(s, [u], attrsOf, now) == UserSteps(s, u, attrsOf, now);
  }

  /** Every call issued while processing targets one of the users, and every
      `schedule_operation` asks for REMOVE at `now` plus the retention period. */
  lemma {:induction false} ProcessingActions(s: Config, users: seq<User>, attrsOf: map<string, seq<Attr>>, now: int)
    ensures forall act :: act in Processing(s, users, attrsOf, now).done ==>
              !act.Send? && exists u :: u in users && u.internalId == act.entity
    ensures forall act :: act in Processing(s, users, attrsOf, now).done && act.Schedule? ==>
              act.operation == "REMOVE" && RetentionDays(s.retentionPeriod).Some? &&
              act.when == DueAt(now, RetentionDays(s.retentionPeriod).value)
    decreases |users|
  {
    if users != [] {
      var init, last := users[..|users| - 1], users[|users| - 1];
      ProcessingActions(s, init, attrsOf, now);
      if last.internalId in attrsOf {
        RemovalsOnlyRemove(s, last.internalId, attrsOf[last.internalId]);
      }
      assert forall u :: u in init ==> u in users;
    }
  }

  /** In a live run that does not fail, `schedule_operation` is called exactly once
      per user, in user order. */
  lemma {:induction false} OneSchedulePerUser(s: Config, users: seq<User>, attrsOf: map<string, seq<Attr>>, now: int)
    requires !s.dryRun && Processing(s, users, attrsOf, now).failure.None?
    ensures ScheduledEntities(Processing(s, users, attrsOf, now).done) == Ids(users)
    decreases |users|
  {
    if users != [] {
      var init, last := users[..|users| - 1], users[|users| - 1];
      OneSchedulePerUser(s, init, attrsOf, now);
      UserStepsOrder(s, last, attrsOf, now);
      var removed := Removals(s, last.internalId, attrsOf[last.internalId]).done;
      RemovalsOnlyRemove(s, last.internalId, attrsOf[last.internalId]);
      NoScheduleAmongRemovals(removed);
      var scheduled := [Schedule(last.internalId, "REMOVE",
                                 DueAt(now, RetentionDays(s.retentionPeriod).value))];
      ScheduledEntitiesAppend(Processing(s, init, attrsOf, now).done, removed + scheduled);
      ScheduledEntitiesAppend(removed, scheduled);
      assert ScheduledEntities(scheduled) == [last.internalId];
    }
  }

  /** A dry run issues no mutating call while processing. */
  lemma {:induction false} ProcessingDryRun(s: Config, users: seq<User>, attrsOf: map<string, seq<Attr>>, now: int)
    requires s.dryRun
    ensures Processing(s, users, attrsOf, now).done == []
    decreases |users|
  {
    if users != [] {
      var last := users[|users| - 1];
      ProcessingDryRun(s, users[..|users| - 1], attrsOf, now);
      if last.internalId in attrsOf {
        RemovalsDryRun(s, last.internalId, attrsOf[last.internalId]);
      }
    }
  }

  /** A dry run processes the users without failure wherever a live run does. */
  lemma {:induction false} ProcessingDryRunFailsOnlyIfLive(s: Config, users: seq<User>,
                                                          attrsOf: map<string, seq<Attr>>, now: int)
    ensures Processing(s.(dryRun := false), users, attrsOf, now).failure.None? ==>
              Processing(s.(dryRun := true), users, attrsOf, now).failure.None?
    decreases |users|
  {
    if users != [] {
      var last := users[|users| - 1];
      ProcessingDryRunFailsOnlyIfLive(s, users[..|users| - 1], attrsOf, now);
      if last.internalId in attrsOf {
        RemovalsDryRunFailsOnlyIfLive(s, last.internalId, attrsOf[last.internalId]);
      }
    }
  }

  // ---------------------------------------------------------------------------
  // Report (lines 98-104)

  /** The report keeps user order. */
  lemma {:induction false} ReportAppend(xs: seq<User>, ys: seq<User>)
    ensures Report(xs + ys) == Report(xs) + Report(ys)
    decreases |ys|
  {
    if ys == [] {
      assert xs + ys == xs;
    } else {
      var init := ys[..|ys| - 1];
      assert (xs + ys)[..|xs + ys| - 1] == xs + init;
      assert (xs + ys)[|xs + ys| - 1] == ys[|ys| - 1];
      ReportAppend(xs, init);
    }
  }

  /** The report lists the shared id of exactly the users that have one. */
  lemma {:induction false} ReportMembers(users: seq<User>)
    ensures |Report(users)| <= |users|
    ensures forall x :: x in Report(users) <==> exists u :: u in users && u.sharedId == Some(x)
    decreases |users|
  {
    if users != [] {
      var init, last := users[..|users| - 1], users[|users| - 1];
      assert users == init + [last];
      ReportMembers(init);
    }
  }

  // ---------------------------------------------------------------------------
  // The whole run (lines 52-73, 117-122)

  /** No call is ever issued for a member that is not a candidate. */
  lemma NoActionForNonCandidate(s: Config, members: seq<string>, entities: map<string, Entity>,
                                attrsOf: map<string, seq<Attr>>, now: int)
    ensures forall act :: act in Run(s, members, entities, attrsOf, now).trace.done && !act.Send? ==>
              act.entity in members && act.entity in entities && IsCandidate(entities[act.entity])
  {
    var found := Candidates(members, entities);
    if found.failure.None? {
      CandidatesAreTheDisabledMembers(members, entities);
      ProcessingActions(s, found.done, attrsOf, now);
    }
  }

  /** With no candidate, no call of any kind is issued, no email included. */
  lemma NoCandidatesNoCalls(s: Config, members: seq<string>, entities: map<string, Entity>,
                            attrsOf: map<string, seq<Attr>>, now: int)
    requires Run(s, members, entities, attrsOf, now).users == []
    ensures Run(s, members, entities, attrsOf, now).trace.done == []
  {
  }

  /** When no candidate has a shared id, no email is sent, though the candidates
      are still stripped and scheduled. */
  lemma NoSharedIdNoEmail(s: Config, members: seq<string>, entities: map<string, Entity>,
                          attrsOf: map<string, seq<Attr>>, now: int)
    requires Report(Run(s, members, entities, attrsOf, now).users) == []
    ensures forall act :: act in Run(s, members, entities, attrsOf, now).trace.done ==> !act.Send?
    ensures Run(s, members, entities, attrsOf, now).trace.done ==
              (if Candidates(members, entities).failure.Some? then []
               else Processing(s, Candidates(members, entities).done, attrsOf, now).done)
  {
    var found := Candidates(members, entities);
    if found.failure.None? {
      ProcessingActions(s, found.done, attrsOf, now);
    }
  }

  /** A live run that gets through every candidate and has a non-empty report ends
      with a single email whose `users.json` attachment carries that report. */
  lemma LiveRunSendsReport(s: Config, members: seq<string>, entities: map<string, Entity>,
                           attrsOf: map<string, seq<Attr>>, now: int)
    requires !s.dryRun
    requires Run(s, members, entities, attrsOf, now).trace.failure.None?
    requires Report(Run(s, members, entities, attrsOf, now).users) != []
    ensures Run(s, members, entities, attrsOf, now).trace.done ==
              Processing(s, Run(s, members, entities, attrsOf, now).users, attrsOf, now).done +
              [Send(s.emailFrom, s.emailTo, s.emailSubject, s.emailIntroText,
                    [Attachment("users.json", Report(Run(s, members, entities, attrsOf, now).users))])]
  {
  }

  /** A dry run issues no `remove_entity_attr`, no `schedule_operation` and no `send`. */
  lemma DryRunIssuesNoCalls(s: Config, members: seq<string>, entities: map<string, Entity>,
                            attrsOf: map<string, seq<Attr>>, now: int)
    requires s.dryRun
    ensures Run(s, members, entities, attrsOf, now).trace.done == []
  {
    var found := Candidates(members, entities);
    if found.failure.None? {
      ProcessingDryRun(s, found.done, attrsOf, now);
    }
  }

  /** A dry run finds the same candidates, hence builds the same report, as a live
      run, and completes wherever the live run completes. */
  lemma DryRunDecidesAsLive(s: Config, members: seq<string>, entities: map<string, Entity>,
                            attrsOf: map<string, seq<Attr>>, now: int)
    ensures Run(s.(dryRun := true), members, entities, attrsOf, now).users ==
              Run(s.(dryRun := false), members, entities, attrsOf, now).users
    ensures Report(Run(s.(dryRun := true), members, entities, attrsOf, now).users) ==
              Report(Run(s.(dryRun := false), members, entities, attrsOf, now).users)
    ensures Run(s.(dryRun := false), members, entities, attrsOf, now).trace.failure.None? ==>
              Run(s.(dryRun := true), members, entities, attrsOf, now).trace.failure.None?
  {
    var found := Candidates(members, entities);
    if found.failure.None? {
      ProcessingDryRunFailsOnlyIfLive(s, found.done, attrsOf, now);
    }
  }

  /** With `retention_period` absent or falsy, every removal is scheduled 365 days
      after `now`. */
  lemma DefaultRetentionIsAYear(cfg: Value, members: seq<string>, entities: map<string, Entity>,
                                attrsOf: map<string, seq<Attr>>, now: int)
    requires Load(cfg).Ok?
    requires !Truthy(Lookup(cfg, ["retention_period"]).value)
    ensures forall act :: act in Run(Load(cfg).value, members, entities, attrsOf, now).trace.done && act.Schedule? ==>
              act.when == now + 365 * SecondsPerDay
  {
    var s := Load(cfg).value;
    RetentionPeriodDefault(cfg);
    var found := Candidates(members, entities);
    if found.failure.None? {
      ProcessingActions(s, found.done, attrsOf, now);
    }
  }

  /** From 1970 on, a retention period of 3000000 days or more reaches past the
      year 9999, so scheduling fails in dry and live runs alike. */
  lemma RetentionBeyondCalendarFails(s: Config, u: User, now: int)
    requires RetentionDays(s.retentionPeriod).Some? && RetentionDays(s.retentionPeriod).value >= 3000000
    requires now >= 0
    ensures ScheduleStep(s, u.internalId, now) == Partial([], Some(DateOutOfRange))
  {
  }

  // ---------------------------------------------------------------------------
  // A worked run

  /** Members A, B and C: A is disabled with persistent id "urn:A", B is active,
      C is disabled but already scheduled for removal. Only A is scheduled, and
      one email reports "urn:A". */
  lemma ThreeMemberRun(s: Config, now: int)
    requires !s.dryRun && s.retentionPeriod == DefaultRetentionPeriod
    requires MinInstant <= now && now + 365 * SecondsPerDay <= MaxInstant
    ensures
      var entities := map[
        "A" := Entity("disabled", Some(Null), [Identity("persistent", "urn:A")]),
        "B" := Entity("active", Some(Null), []),
        "C" := Entity("disabled", Some(Str("REMOVE")), [])];
      Run(s, ["A", "B", "C"], entities, map["A" := []], now) ==
        Outcome([User("A", Some("urn:A"))],
                Partial([Schedule("A", "REMOVE", now + 365 * SecondsPerDay),
                         Send(s.emailFrom, s.emailTo, s.emailSubject, s.emailIntroText,
                              [Attachment("users.json", ["urn:A"])])], None))
  {
    var entities := map[
      "A" := Entity("disabled", Some(Null), [Identity("persistent", "urn:A")]),
      "B" := Entity("active", Some(Null), []),
      "C" := Entity("disabled", Some(Str("REMOVE")), [])];
    var members := ["A", "B", "C"];
    var a := User("A", Some("urn:A"));
    assert members[..2][..1] == ["A"] && members[..2] == ["A", "B"];
    assert Candidates(["A"], entities) == Partial([a], None);
    assert Candidates(["A", "B"], entities) == Partial([a], None);
    assert Candidates(members, entities) == Partial([a], None);
    var attrsOf: map<string, seq<Attr>> := map["A" := []];
    assert Processing(s, [a], attrsOf, now) ==
             Partial([Schedule("A", "REMOVE", now + 365 * SecondsPerDay)], None);
    assert Report([a]) == ["urn:A"];
  }
}
