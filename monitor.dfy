/** Model of `main` and its helpers in b2accessdeprovisioning/monitor.py.
    The identity-management API and the mailer are replaced by inputs (the group's
    members, each member's entity record, each entity's attributes, the current
    time) and by a trace of the mutating calls the run issues. */
module Monitor {
  import opened Wrappers
  import opened Util
  import opened Settings

  const SecondsPerDay := 86400

  /** One entry of an entity's `identities`. */
  datatype Identity = Identity(typeId: string, value: string)

  /** What `get_entity` returns: `entityInformation.state`,
      `entityInformation.scheduledOperation` (None when the key is absent) and
      `identities`. */
  datatype Entity = Entity(state: string, scheduledOperation: Option<Value>, identities: seq<Identity>)

  /** One attribute returned by `get_entity_attrs`; `name` and `email` may be absent. */
  datatype Attr = Attr(name: Option<string>, visibility: string, email: Option<Value>)

  /** A deprovisioning candidate. */
  datatype User = User(internalId: string, sharedId: Option<string>)

  /** The `users.json` attachment; its text is the JSON rendering of `accountIds`. */
  datatype Attachment = Attachment(filename: string, accountIds: seq<string>)

  /** The mutating calls the run issues, in the order it issues them. */
  datatype Action =
    | RemoveAttr(entity: string, name: string, email: Value)
    | Schedule(entity: string, operation: string, when: int)
    | Send(sender: Value, recipients: Value, subject: Value, introText: Value, attachments: seq<Attachment>)

  /** The exceptions that abort a run. */
  datatype RunError =
    | EntityUnavailable(member: string)              // get_entity failed
    | ScheduledOperationMissing(member: string)      // KeyError on 'scheduledOperation'
    | AttrsUnavailable(entity: string)               // get_entity_attrs failed
    | WhitelistNotIterable                           // TypeError from `name not in whitelist`
    | EmailMissing(entity: string, name: string)     // KeyError on attr['email']
    | RetentionNotANumber                            // TypeError from timedelta(days=...)
    | DateOutOfRange                                 // OverflowError from timedelta or the sum

  /** What a step produced before it finished or failed. */
  datatype Partial<T> = Partial(done: seq<T>, failure: Option<RunError>) {
    /** Run `next` after this one, unless this one failed. */
    function Then(next: Partial<T>): Partial<T> {
      if failure.Some? then this else Partial(done + next.done, next.failure)
    }
  }

  /** The candidates a run found and the calls it issued. */
  datatype Outcome = Outcome(users: seq<User>, trace: Partial<Action>)

  lemma ThenAssoc<T>(a: Partial<T>, b: Partial<T>, c: Partial<T>)
    ensures a.Then(b).Then(c) == a.Then(b.Then(c))
  {
    if a.failure.None? && b.failure.None? {
      assert a.done + b.done + c.done == a.done + (b.done + c.done);
    }
  }

  // ---------------------------------------------------------------------------
  // Discovery (lines 55-66)

  /** The entity state and scheduled operation that make a member a candidate. */
  predicate IsCandidate(e: Entity) {
    e.state == "disabled" && e.scheduledOperation != Some(Str("REMOVE"))
  }

  /** The value of the first identity of type `persistent`, if any. */
  function SharedId(identities: seq<Identity>): Option<string>
    decreases |identities|
  {
    if identities == [] then None
    else if identities[0].typeId == "persistent" then Some(identities[0].value)
    else SharedId(identities[1..])
  }

  /** One iteration of the discovery loop, for member `id`. */
  function Classify(id: string, entities: map<string, Entity>): Partial<User> {
    if id !in entities then Partial([], Some(EntityUnavailable(id)))
    else
      var e := entities[id];
      if e.state != "disabled" then Partial([], None)
      else if e.scheduledOperation.None? then Partial([], Some(ScheduledOperationMissing(id)))
      else if e.scheduledOperation.value == Str("REMOVE") then Partial([], None)
      else Partial([User(id, SharedId(e.identities))], None)
  }

  /** The discovery loop over `members`, stopping at the first failure. */
  function Candidates(members: seq<string>, entities: map<string, Entity>): Partial<User>
    decreases |members|
  {
    if members == [] then Partial([], None)
    else Candidates(members[..|members| - 1], entities).Then(Classify(members[|members| - 1], entities))
  }

  // ---------------------------------------------------------------------------
  // Attribute removal (lines 76-86)

  /** `name in s` for strings: `sub` occurs in `s`. */
  predicate Occurs(sub: string, s: string)
    decreases |s|
  {
    (|sub| <= |s| && s[..|sub|] == sub) || (s != [] && Occurs(sub, s[1..]))
  }

  /** `name not in whitelist`, with Python's `in` for each kind of whitelist value. */
  function NotWhitelisted(name: string, whitelist: Value): Result<bool, RunError> {
    match whitelist
    case List(items) => Ok(Str(name) !in items)
    case Dict(entries) => Ok(name !in entries)
    case Str(s) => Ok(!Occurs(name, s))
    case _ => Err(WhitelistNotIterable)
  }

  /** The selection test of line 81-82: the attribute has a name, the name is not
      whitelisted, and the attribute is fully visible. */
  predicate Removable(a: Attr, whitelist: Value) {
    a.name.Some? && NotWhitelisted(a.name.value, whitelist) == Ok(true) && a.visibility == "full"
  }

  /** One iteration of the attribute loop, for attribute `a` of entity `id`. */
  function RemovalStep(s: Config, id: string, a: Attr): Partial<Action> {
    if a.name.None? then Partial([], None)
    else
      match NotWhitelisted(a.name.value, s.attrWhitelist)
      case Err(e) => Partial([], Some(e))
      case Ok(notListed) =>
        if !notListed || a.visibility != "full" || s.dryRun then Partial([], None)
        else if a.email.None? then Partial([], Some(EmailMissing(id, a.name.value)))
        else Partial([RemoveAttr(id, a.name.value, a.email.value)], None)
  }

  /** The attribute loop over `attrs`, stopping at the first failure. */
  function Removals(s: Config, id: string, attrs: seq<Attr>): Partial<Action>
    decreases |attrs|
  {
    if attrs == [] then Partial([], None)
    else Removals(s, id, attrs[..|attrs| - 1]).Then(RemovalStep(s, id, attrs[|attrs| - 1]))
  }

  /** `_remove_user_attrs` for entity `id`: fetch its attributes, then the loop. */
  function AttrRemovals(s: Config, id: string, attrsOf: map<string, seq<Attr>>): Partial<Action> {
    if id !in attrsOf then Partial([], Some(AttrsUnavailable(id)))
    else Removals(s, id, attrsOf[id])
  }

  // ---------------------------------------------------------------------------
  // Scheduling (lines 89-95)

  /** The whole days `timedelta(days=v)` accepts: an int, or a bool read as 0 or 1. */
  function RetentionDays(v: Value): Option<int> {
    match v
    case Int(i) => Some(i)
    case Bool(b) => Some(if b then 1 else 0)
    case _ => None
  }

  /** The largest number of days a `timedelta` holds. */
  const MaxTimedeltaDays := 999999999
  /** The first and the last whole second a `datetime` holds (years 1 to 9999),
      in seconds since 1970-01-01T00:00:00 UTC. */
  const MinInstant := -62135596800
  const MaxInstant := 253402300799

  /** `now` plus `days` whole days. */
  function DueAt(now: int, days: int): int {
    now + days * SecondsPerDay
  }

  /** `utcnow() + timedelta(days=days)` can be computed: the `timedelta` exists
      and the sum stays within the years a `datetime` holds. */
  predicate Schedulable(now: int, days: int) {
    -MaxTimedeltaDays <= days <= MaxTimedeltaDays &&
    MinInstant <= DueAt(now, days) <= MaxInstant
  }

  /** `_schedule_user_removal` for entity `id` at time `now` (seconds, UTC).
      The date is computed, and can overflow, in a dry run too. */
  function ScheduleStep(s: Config, id: string, now: int): Partial<Action> {
    match RetentionDays(s.retentionPeriod)
    case None => Partial([], Some(RetentionNotANumber))
    case Some(days) =>
      if !Schedulable(now, days) then Partial([], Some(DateOutOfRange))
      else if s.dryRun then Partial([], None)
      else Partial([Schedule(id, "REMOVE", DueAt(now, days))], None)
  }

  /** Everything the processing loop does for one user. */
  function UserSteps(s: Config, u: User, attrsOf: map<string, seq<Attr>>, now: int): Partial<Action> {
    AttrRemovals(s, u.internalId, attrsOf).Then(ScheduleStep(s, u.internalId, now))
  }

  /** The processing loop of lines 68-70, stopping at the first failure. */
  function Processing(s: Config, users: seq<User>, attrsOf: map<string, seq<Attr>>, now: int): Partial<Action>
    decreases |users|
  {
    if users == [] then Partial([], None)
    else Processing(s, users[..|users| - 1], attrsOf, now).Then(UserSteps(s, users[|users| - 1], attrsOf, now))
  }

  // ---------------------------------------------------------------------------
  // Notification (lines 98-122)

  /** `account_details`: the shared ids of the users that have one, as ids. */
  function Report(users: seq<User>): seq<string>
    decreases |users|
  {
    if users == [] then []
    else
      var last := users[|users| - 1];
      Report(users[..|users| - 1]) + (if last.sharedId.Some? then [last.sharedId.value] else [])
  }

  /** `_send_notification`: one email carrying the report, unless the report is
      empty or the run is a dry run. */
  function Notification(s: Config, users: seq<User>): Partial<Action> {
    var report := Report(users);
    if report == [] || s.dryRun then Partial([], None)
    else Partial([Send(s.emailFrom, s.emailTo, s.emailSubject, s.emailIntroText,
                       [Attachment("users.json", report)])], None)
  }

  // ---------------------------------------------------------------------------
  // The whole run (lines 52-73)

  function Run(s: Config, members: seq<string>, entities: map<string, Entity>,
               attrsOf: map<string, seq<Attr>>, now: int): Outcome
  {
    var found := Candidates(members, entities);
    if found.failure.Some? then Outcome(found.done, Partial([], found.failure))
    else
      var users := found.done;
      Outcome(users, Processing(s, users, attrsOf, now).Then(
                       if users == [] then Partial([], None) else Notification(s, users)))
  }

  // ---------------------------------------------------------------------------
  // The steps as the source runs them

  /** `_remove_user_attrs`. */
  method RemoveUserAttrs(s: Config, user: User, attrsOf: map<string, seq<Attr>>)
    returns (actions: seq<Action>, failure: Option<RunError>)
    ensures Partial(actions, failure) == AttrRemovals(s, user.internalId, attrsOf)
  {
    actions, failure := [], None;
    var id := user.internalId;
    if id !in attrsOf {
      failure := Some(AttrsUnavailable(id));
      return;
    }
    var attrs := attrsOf[id];
    for i := 0 to |attrs|
      invariant Removals(s, id, attrs[..i]) == Partial(actions, None)
    {
      var attr := attrs[i];
      assert attrs[..i + 1][..i] == attrs[..i];
      assert Removals(s, id, attrs[..i + 1]) == Removals(s, id, attrs[..i]).Then(RemovalStep(s, id, attr));
      if attr.name.Some? {
        var name := attr.name.value;
        match NotWhitelisted(name, s.attrWhitelist)
        case Err(e) =>
          failure := Some(e);
          RemovalsAppend(s, id, attrs[..i + 1], attrs[i + 1..]);
          assert attrs[..i + 1] + attrs[i + 1..] == attrs;
          return;
        case Ok(notListed) =>
          if notListed && attr.visibility == "full" && !s.dryRun {
            if attr.email.None? {
              failure := Some(EmailMissing(id, name));
              RemovalsAppend(s, id, attrs[..i + 1], attrs[i + 1..]);
              assert attrs[..i + 1] + attrs[i + 1..] == attrs;
              return;
            }
            actions := actions + [RemoveAttr(id, name, attr.email.value)];
          }
      }
    }
    assert attrs[..|attrs|] == attrs;
  }

  /** `_schedule_user_removal`: the removal is due `retention_period` days after `now`. */
  method ScheduleUserRemoval(s: Config, user: User, now: int)
    returns (actions: seq<Action>, failure: Option<RunError>)
    ensures failure == Some(RetentionNotANumber) <==> RetentionDays(s.retentionPeriod).None?
    ensures failure == Some(DateOutOfRange) <==>
              RetentionDays(s.retentionPeriod).Some? &&
              !Schedulable(now, RetentionDays(s.retentionPeriod).value)
    ensures failure.None? ==> MinInstant <= DueAt(now, RetentionDays(s.retentionPeriod).value) <= MaxInstant
    ensures failure.None? && !s.dryRun ==>
              actions == [Schedule(user.internalId, "REMOVE",
                                   DueAt(now, RetentionDays(s.retentionPeriod).value))]
    ensures failure.Some? || s.dryRun ==> actions == []
    ensures Partial(actions, failure) == ScheduleStep(s, user.internalId, now)
  {
    actions, failure := [], None;
    var days := RetentionDays(s.retentionPeriod);
    if days.None? {
      failure := Some(RetentionNotANumber);
      return;
    }
    if days.value < -MaxTimedeltaDays || MaxTimedeltaDays < days.value {
      failure := Some(DateOutOfRange);
      return;
    }
    var when := DueAt(now, days.value);
    if when < MinInstant || MaxInstant < when {
      failure := Some(DateOutOfRange);
      return;
    }
    if !s.dryRun {
      actions := [Schedule(user.internalId, "REMOVE", when)];
    }
  }

  /** `_send_notification`: build `account_details`, then send it unless it is empty. */
  method SendNotification(s: Config, users: seq<User>)
    returns (accountDetails: seq<string>, actions: seq<Action>)
    ensures accountDetails == Report(users)
    ensures Partial(actions, None) == Notification(s, users)
  {
    accountDetails := [];
    for i := 0 to |users|
      invariant accountDetails == Report(users[..i])
    {
      assert users[..i + 1][..i] == users[..i];
      if users[i].sharedId.Some? {
        accountDetails := accountDetails + [users[i].sharedId.value];
      }
    }
    assert users[..|users|] == users;
    actions := [];
    if accountDetails == [] {
      return;
    }
    var attachments := [Attachment("users.json", accountDetails)];
    if !s.dryRun {
      actions := [Send(s.emailFrom, s.emailTo, s.emailSubject, s.emailIntroText, attachments)];
    }
  }

  /** The identity scan of `main`: the first identity of type `persistent`
      supplies the shared id, and the scan stops there. */
  method FindSharedId(identities: seq<Identity>) returns (sharedId: Option<string>)
    ensures sharedId == SharedId(identities)
  {
    sharedId := None;
    for k := 0 to |identities|
      invariant SharedId(identities[k..]) == SharedId(identities)
    {
      assert identities[k..][1..] == identities[k + 1..];
      if identities[k].typeId == "persistent" {
        sharedId := Some(identities[k].value);
        break;
      }
    }
  }

  /** The discovery loop of `main`: fetch each member's entity and keep, in
      membership order, those that are disabled and not already scheduled for removal. */
  method DiscoverCandidates(members: seq<string>, entities: map<string, Entity>)
    returns (users: seq<User>, failure: Option<RunError>)
    ensures Partial(users, failure) == Candidates(members, entities)
  {
    users, failure := [], None;
    for i := 0 to |members|
      invariant Candidates(members[..i], entities) == Partial(users, None)
    {
      var memberId := members[i];
      assert members[..i + 1][..i] == members[..i];
      if memberId !in entities || (entities[memberId].state == "disabled" &&
                                   entities[memberId].scheduledOperation.None?) {
        failure := Some(if memberId !in entities then EntityUnavailable(memberId)
                        else ScheduledOperationMissing(memberId));
        CandidatesAppend(members[..i + 1], members[i + 1..], entities);
        assert members[..i + 1] + members[i + 1..] == members;
        return;
      }
      var entity := entities[memberId];
      if entity.state != "disabled" {
        continue;
      }
      if entity.scheduledOperation.value == Str("REMOVE") {
        continue;
      }
      var sharedId := FindSharedId(entity.identities);
      users := users + [User(memberId, sharedId)];
    }
    assert members[..|members|] == members;
  }

  /** The processing loop of `main`: strip then schedule each user in turn. */
  method ProcessUsers(s: Config, users: seq<User>, attrsOf: map<string, seq<Attr>>, now: int)
    returns (actions: seq<Action>, failure: Option<RunError>)
    ensures Partial(actions, failure) == Processing(s, users, attrsOf, now)
  {
    actions, failure := [], None;
    for j := 0 to |users|
      invariant Processing(s, users[..j], attrsOf, now) == Partial(actions, None)
    {
      assert users[..j + 1][..j] == users[..j];
      assert Processing(s, users[..j + 1], attrsOf, now) ==
               Processing(s, users[..j], attrsOf, now).Then(UserSteps(s, users[j], attrsOf, now));
      var done, failed := RemoveUserAttrs(s, users[j], attrsOf);
      if failed.None? {
        var scheduled;
        scheduled, failed := ScheduleUserRemoval(s, users[j], now);
        done := done + scheduled;
      }
      assert Partial(done, failed) == UserSteps(s, users[j], attrsOf, now);
      actions := actions + done;
      if failed.Some? {
        failure := failed;
        ProcessingAppend(s, users[..j + 1], users[j + 1..], attrsOf, now);
        assert users[..j + 1] + users[j + 1..] == users;
        return;
      }
    }
    assert users[..|users|] == users;
  }

  /** `main`: discover the candidates, strip and schedule each one, then notify. */
  method Deprovision(s: Config, members: seq<string>, entities: map<string, Entity>,
              attrsOf: map<string, seq<Attr>>, now: int)
    returns (users: seq<User>, actions: seq<Action>, failure: Option<RunError>)
    ensures Outcome(users, Partial(actions, failure)) == Run(s, members, entities, attrsOf, now)
  {
    users, failure := DiscoverCandidates(members, entities);
    actions := [];
    if failure.Some? {
      return;
    }
    actions, failure := ProcessUsers(s, users, attrsOf, now);
    if failure.Some? {
      return;
    }
    if |users| > 0 {
      var accountDetails, sent := SendNotification(s, users);
      actions := actions + sent;
    }
  }

  // ---------------------------------------------------------------------------
  // Each loop runs its step on each element in turn

  lemma {:induction false} CandidatesAppend(xs: seq<string>, ys: seq<string>, entities: map<string, Entity>)
    ensures Candidates(xs + ys, entities) == Candidates(xs, entities).Then(Candidates(ys, entities))
    decreases |ys|
  {
    if ys == [] {
      assert xs + ys == xs;
    } else {
      var init := ys[..|ys| - 1];
      assert (xs + ys)[..|xs + ys| - 1] == xs + init;
      assert (xs + ys)[|xs + ys| - 1] == ys[|ys| - 1];
      CandidatesAppend(xs, init, entities);
      ThenAssoc(Candidates(xs, entities), Candidates(init, entities), Classify(ys[|ys| - 1], entities));
    }
  }

  lemma {:induction false} RemovalsAppend(s: Config, id: string, xs: seq<Attr>, ys: seq<Attr>)
    ensures Removals(s, id, xs + ys) == Removals(s, id, xs).Then(Removals(s, id, ys))
    decreases |ys|
  {
    if ys == [] {
      assert xs + ys == xs;
    } else {
      var init := ys[..|ys| - 1];
      assert (xs + ys)[..|xs + ys| - 1] == xs + init;
      assert (xs + ys)[|xs + ys| - 1] == ys[|ys| - 1];
      RemovalsAppend(s, id, xs, init);
      ThenAssoc(Removals(s, id, xs), Removals(s, id, init), RemovalStep(s, id, ys[|ys| - 1]));
    }
  }

  lemma {:induction false} ProcessingAppend(s: Config, xs: seq<User>, ys: seq<User>,
                                            attrsOf: map<string, seq<Attr>>, now: int)
    ensures Processing(s, xs + ys, attrsOf, now) ==
              Processing(s, xs, attrsOf, now).Then(Processing(s, ys, attrsOf, now))
    decreases |ys|
  {
    if ys == [] {
      assert xs + ys == xs;
    } else {
      var init := ys[..|ys| - 1];
      assert (xs + ys)[..|xs + ys| - 1] == xs + init;
      assert (xs + ys)[|xs + ys| - 1] == ys[|ys| - 1];
      ProcessingAppend(s, xs, init, attrsOf, now);
      ThenAssoc(Processing(s, xs, attrsOf, now), Processing(s, init, attrsOf, now),
                UserSteps(s, ys[|ys| - 1], attrsOf, now));
    }
  }
}
