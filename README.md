# B2ACCESS deprovisioning monitor, modelled in Dafny

The monitor is a batch job. It reads the membership of one group in the
identity-management system (Unity) and fetches each member's entity. Members
that are `disabled` and not already scheduled for `REMOVE` become candidates.
The job then strips each candidate's fully visible, non-whitelisted attributes
and schedules the candidate's removal `retention_period` days ahead. Finally it
emails a `users.json` report of the candidates' persistent ids. A `dry_run`
flag suppresses every mutating call.

The model replaces the outside world with inputs and a trace:

- The group's members are a `seq<string>`.
- Entities are a `map<string, Entity>` keyed by member id. A member missing
  from the map stands for a failed `get_entity`.
- Each entity's attributes are a `map<string, seq<Attr>>`. An entity missing
  from the map stands for a failed `get_entity_attrs`.
- `now` is an integer count of seconds (UTC).
- The configuration is a `Util.Value` tree of nulls, booleans, integers,
  strings, lists and string-keyed dictionaries.
- Every mutating call becomes an `Action` in the run's trace: `RemoveAttr`,
  `Schedule` or `Send`.

An exception aborts the run. The model shows this as a `Partial` result: the
calls already issued, plus the error that stopped the run.

Files and modules:

- `wrappers.dfy` (`Wrappers`): `Option` and `Result`.
- `util.dfy` (`Util`) models `util.py`. `Index` is plain nested indexing.
  `Lookup` is the same indexing with a KeyError turned into None. `SafeGet` is
  the source's loop, proved equal to `Lookup`.
- `settings.dfy` (`Settings`) resolves every `x or DEFAULT` option of
  `monitor.py` into a `Config`.
- `monitor.dfy` (`Monitor`) holds the records, one specification function per
  loop or step of `main`, and the methods that run those loops as the source
  does. The methods are `DiscoverCandidates` and `ProcessUsers` (the two loops
  of `main`), `FindSharedId`, `RemoveUserAttrs`, `ScheduleUserRemoval`,
  `SendNotification` and `Deprovision` (for `main` itself). Each method is proved equal to its
  specification function.
- `monitor_properties.dfy` (`MonitorProperties`) proves the trace properties
  about those specification functions.

Where the code's behaviour is surprising, the model follows the code:

- `remove_entity_attr` is passed `attr['email']`. A removable attribute without
  an `email` key raises KeyError in a live run. A dry run never reads the key.
- The whitelist is searched with Python's `in` on whatever value is configured.
  A list is searched by element equality, a string by substring, and a
  dictionary by key. Any other value raises TypeError.
- `cert_verify` is resolved as `safeget(...) or True`, so a configured `False`
  still yields `True`.
- The log level is resolved as `getLevelName(safeget(config, 'log_level')) or
  'WARNING'`. For an absent or unregistered level, `getLevelName` answers a
  string such as `'Level None'`. That string is truthy, so the `WARNING` default
  is never used, and `basicConfig` then raises ValueError. Start-up therefore
  needs a registered level name or number. A level named `NOTSET` maps to 0,
  which is falsy, so it becomes `WARNING`.
- The removal date `utcnow() + timedelta(days=...)` is computed in dry runs
  too. It raises OverflowError when the retention period exceeds the largest
  `timedelta`, or when the date falls outside the years 1 to 9999.

## Model

| member | source | states |
|---|---|---|
| `Util.SafeGet` | b2accessdeprovisioning/util.py:3-9 | with no keys it returns the input; when every key is present it returns the value reached by indexing key by key; a missing key yields None; only indexing into a non-mapping stays an error (TypeError) |
| `Util.IndexAppend` | b2accessdeprovisioning/util.py:4-6 | indexing along `k1 + k2` is indexing along `k1`, then along `k2` from the value reached; an error on `k1` is final |
| `Util.LookupStopsAtMissingKey` | b2accessdeprovisioning/util.py:5-8 | a key missing at position i makes the answer None, and no key after it changes that |
| `Util.LookupCompose` | b2accessdeprovisioning/util.py:4-6 | when `safeget(d, k1)` is not None, `safeget(d, k1 + k2) == safeget(safeget(d, k1), k2)` |
| `Settings.BasicConfigLevel` | b2accessdeprovisioning/monitor.py:30 | `basicConfig(level=getLevelName(v) or 'WARNING')` either sets a level the logging library registers or raises |
| `Settings.Load` | b2accessdeprovisioning/monitor.py:16-49 | after a successful start-up the log level is the one `basicConfig` accepted for the configured `log_level`; `cert_verify`, the API path and version, the mail host and port, the retention period, the subject and the intro text are all truthy; `dry_run` holds exactly when the configured value is truthy |
| `Settings.LoadSucceedsIff` | b2accessdeprovisioning/monitor.py:30-49 | start-up fails exactly when `basicConfig` rejects the configured log level, or `api.base_url`, `api.user`, `api.password`, `notifications.email.from` or `notifications.email.to` cannot be indexed; every `safeget` lookup, including those repeated at lines 77, 90, 115 and 120-121, then succeeds |
| `Settings.LogLevelRequired` | b2accessdeprovisioning/monitor.py:26-30 | with `log_level` absent, or set to a name the logging library does not register, start-up stops with the ValueError of `basicConfig`; the `WARNING` default is never reached |
| `Settings.RegisteredLogLevelAccepted` | b2accessdeprovisioning/monitor.py:30 | a registered level name or number sets that level, except that the name `NOTSET` (level 0, falsy) falls back to `WARNING` (30) |
| `Settings.RetentionPeriodDefault` | b2accessdeprovisioning/monitor.py:90 | the retention period is 365 when `retention_period` is absent or falsy, and otherwise the configured value |
| `Settings.AttrWhitelistDefault` | b2accessdeprovisioning/monitor.py:77 | an absent or falsy whitelist resolves to the empty list |
| `Settings.CertVerifyFalseOverridden` | b2accessdeprovisioning/monitor.py:37 | a configured `cert_verify: False` resolves to True |
| `Monitor.FindSharedId` | b2accessdeprovisioning/monitor.py:63-66 | the identity scan with its `break` returns the value of the first persistent identity, or None |
| `Monitor.DiscoverCandidates` | b2accessdeprovisioning/monitor.py:54-66 | the discovery loop returns the users, or the failure, that `Candidates` specifies |
| `Monitor.RemoveUserAttrs` | b2accessdeprovisioning/monitor.py:76-86 | the attribute loop issues exactly the calls, and stops at the failure, that `AttrRemovals` specifies |
| `Monitor.ScheduleUserRemoval` | b2accessdeprovisioning/monitor.py:89-95 | in a live run one `schedule_operation(id, 'REMOVE', now + days * 86400)`, at a date within the years 1 to 9999; no call in a dry run; TypeError when the retention period is not a whole number of days; OverflowError, in dry runs too, exactly when the period exceeds 999999999 days or the date leaves the years 1 to 9999 |
| `Monitor.SendNotification` | b2accessdeprovisioning/monitor.py:98-122 | `account_details` is the report of the users; the single `send` of `users.json` happens only when the report is non-empty and the run is live |
| `Monitor.ProcessUsers` | b2accessdeprovisioning/monitor.py:68-70 | the processing loop issues the calls that `Processing` specifies, user after user |
| `Monitor.Deprovision` | b2accessdeprovisioning/monitor.py:52-73 | the run's users, calls and failure are those of `Run`: discovery, then processing, then the notification when there is at least one user |
| `Monitor.CandidatesAppend` | b2accessdeprovisioning/monitor.py:55-62 | discovering `xs + ys` is discovering `xs`, then `ys` unless `xs` failed |
| `Monitor.RemovalsAppend` | b2accessdeprovisioning/monitor.py:80-86 | stripping attributes `xs + ys` is stripping `xs`, then `ys` unless `xs` failed |
| `Monitor.ProcessingAppend` | b2accessdeprovisioning/monitor.py:68-70 | processing users `xs + ys` is processing `xs`, then `ys` unless `xs` failed |
| `MonitorProperties.SharedIdIsFirstPersistent` | b2accessdeprovisioning/monitor.py:63-66 | the shared id is the value of the first persistent identity; later persistent identities are ignored |
| `MonitorProperties.SharedIdUnsetIff` | b2accessdeprovisioning/monitor.py:63-66 | the shared id stays unset exactly when no identity is persistent |
| `MonitorProperties.DiscoverySucceedsIff` | b2accessdeprovisioning/monitor.py:56-59 | discovery fails exactly when some member's entity cannot be fetched, or is disabled and lacks `scheduledOperation` |
| `MonitorProperties.CandidatesAreTheDisabledMembers` | b2accessdeprovisioning/monitor.py:55-62 | a member yields a user exactly when its state is `disabled` and its scheduled operation is not `REMOVE`; the user carries the member's id and shared id |
| `MonitorProperties.CandidatesKeepOrder` | b2accessdeprovisioning/monitor.py:55-62 | users keep the order in which the members were returned |
| `MonitorProperties.RemovalsArePlanned` | b2accessdeprovisioning/monitor.py:80-86 | in a live run that does not fail, the calls are exactly one `remove_entity_attr` per attribute that has a name, is not whitelisted and is fully visible, in fetch order (reference definition `Planned`) |
| `MonitorProperties.RemovalsSucceedIff` | b2accessdeprovisioning/monitor.py:81-86 | stripping fails exactly when the whitelist cannot be searched for a named attribute, or a removable attribute lacks `email` in a live run |
| `MonitorProperties.RemovalsDryRun` | b2accessdeprovisioning/monitor.py:85-86 | a dry run issues no `remove_entity_attr` |
| `MonitorProperties.RemovalsDryRunFailsOnlyIfLive` | b2accessdeprovisioning/monitor.py:80-86 | stripping an entity fails in a dry run only where it fails in a live run |
| `MonitorProperties.RemovalsOnlyRemove` | b2accessdeprovisioning/monitor.py:80-86 | stripping an entity issues only removals from that entity |
| `MonitorProperties.EmptyWhitelistExemptsNothing` | b2accessdeprovisioning/monitor.py:77-82 | with the default empty whitelist, an attribute is removed exactly when it has a name and full visibility |
| `MonitorProperties.UserStepsOrder` | b2accessdeprovisioning/monitor.py:68-70 | for one user in a live run, all its attribute removals come first, then its single `schedule_operation` |
| `MonitorProperties.ProcessingPerUser` | b2accessdeprovisioning/monitor.py:68-70 | everything done for a user comes after everything for earlier users and before anything for later ones |
| `MonitorProperties.ProcessingActions` | b2accessdeprovisioning/monitor.py:89-95 | every call issued while processing targets one of the users and is not a `send`; every `schedule_operation` asks for `REMOVE` at `now` plus the retention period |
| `MonitorProperties.OneSchedulePerUser` | b2accessdeprovisioning/monitor.py:68-70 | in a live run that does not fail, `schedule_operation` is called exactly once per user, in user order |
| `MonitorProperties.ProcessingDryRun` | b2accessdeprovisioning/monitor.py:85-95 | a dry run issues no call while processing |
| `MonitorProperties.ProcessingDryRunFailsOnlyIfLive` | b2accessdeprovisioning/monitor.py:68-95 | processing fails in a dry run only where it fails in a live run |
| `MonitorProperties.ReportAppend` | b2accessdeprovisioning/monitor.py:99-102 | the report keeps user order |
| `MonitorProperties.ReportMembers` | b2accessdeprovisioning/monitor.py:99-102 | the report lists the shared id of exactly the users that have one, and users without one are left out |
| `MonitorProperties.NoActionForNonCandidate` | b2accessdeprovisioning/monitor.py:55-70 | no `remove_entity_attr` or `schedule_operation` is ever issued for a member that is not a candidate |
| `MonitorProperties.NoCandidatesNoCalls` | b2accessdeprovisioning/monitor.py:72-73 | with no candidate, no call of any kind is issued |
| `MonitorProperties.NoSharedIdNoEmail` | b2accessdeprovisioning/monitor.py:100-104 | when no candidate has a shared id, no email is sent, but removals and scheduling still happen |
| `MonitorProperties.LiveRunSendsReport` | b2accessdeprovisioning/monitor.py:105-122 | a live run that completes with a non-empty report ends with one `send` whose `users.json` attachment carries that report |
| `MonitorProperties.DryRunIssuesNoCalls` | b2accessdeprovisioning/monitor.py:85-122 | a dry run issues no `remove_entity_attr`, no `schedule_operation` and no `send` |
| `MonitorProperties.DryRunDecidesAsLive` | b2accessdeprovisioning/monitor.py:52-73 | a dry run finds the same candidates, and so builds the same report, as a live run, and completes wherever the live run completes |
| `MonitorProperties.DefaultRetentionIsAYear` | b2accessdeprovisioning/monitor.py:90 | with `retention_period` absent or falsy, every removal is scheduled 365 days after `now` |
| `MonitorProperties.RetentionBeyondCalendarFails` | b2accessdeprovisioning/monitor.py:90 | from 1970 on, a retention period of 3000000 days or more makes scheduling raise OverflowError, in dry and live runs alike |
| `MonitorProperties.ThreeMemberRun` | b2accessdeprovisioning/monitor.py:52-73 | members A (disabled, persistent id `urn:A`), B (active) and C (disabled, already scheduled for REMOVE), with the default retention period at a time a year before the year 10000 at least: only A is scheduled, and one email reports `urn:A` |

## Left out

- The Unity REST client: `get_group`, `get_entity` and `get_entity_attrs` are inputs. The mutating calls are trace actions and are assumed to succeed. A call that raised would end the trace at that call.
- SMTP transport: `send` is one `Send` action carrying sender, recipients, subject, intro text and the attachment.
- JSON rendering of the attachment (`json.dumps` with sorted keys and indentation): the attachment carries the list of ids that would be rendered.
- Configuration file parsing and the construction of the client and mailer objects: the parsed configuration is an input `Value`. The arguments of the client and the mailer are kept in `Config` as `ApiClient` and `Notifier` but have no further effect.
- Logging output: the level `basicConfig` sets is kept in `Config`, and its failure aborts start-up. The debug messages are not modelled; they have no effect on decisions. Level names added at run time with `logging.addLevelName` are not modelled; only the library's registered levels are.
- Wall-clock time: `datetime.utcnow()` is the parameter `now`, in whole seconds, so microseconds are not modelled. A `timedelta` of a float number of days is not modelled, since `Value` has no floats.
- The repeated configuration lookups at lines 77, 90, 115 and 120-121 are resolved once, at start-up. `Settings.LoadSucceedsIff` proves they cannot fail once start-up succeeded, and the configuration is never changed.
- Key errors inside the API's answers, other than a missing `scheduledOperation` or `email`: `groups['members']` (line 55), `entityInformation` (line 57), `state`, `identities`, `typeId`, `value` and `visibility` are taken to be present.
- Monitor.ScheduleUserRemoval: reads the clock once per run. The source calls `datetime.utcnow()` again for each user, so later users in the source get slightly later removal dates.
- `User` is a value. The source appends the user and then sets `shared_id` in place. The model builds the finished user and then appends it; nothing is observed in between.
