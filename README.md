# add_group: severity-driven incident assignment, modelled in Dafny

This project models the `add_group` action component of the Resilient
incident-response platform's community apps. When an `add_group` event
arrives, the component resolves the incident's severity label and rewrites
the stored incident twice through the REST client's read-modify-write call
(`get_put`). The first rewrite sets `owner_id`. The second sets `members`.
Then the component yields a status line naming the incident.

- `High` assigns `high_owner` and the single member `high_member_1`.
- `Medium` assigns `medium_owner` and `medium_member_1`, `medium_member_2`.
- `Low` assigns `low_owner` and `low_member_1`, `low_member_2`, `low_member_3`.
- Any other label leaves the record untouched, because neither closure has a fallback branch.

A missing configuration key is written as `None` (`Values.Null`). It is not an error.

Modules:

- `Wrappers` (wrappers.dfy): Option and Result.
- `Decimal` (decimal.dfy): Python's `str` of an integer. A parser proves that rendering is injective.
- `Values` (values.dfy): JSON-shaped record values, and `str` of null, boolean, integer and string ids.
- `Policy` (policy.dfy): severities, the options table, and the two record rewrites. The rewrites are defined through the configuration key naming scheme (`<tier>_owner`, `<tier>_member_<n>`). The lemmas about them live here too.
- `Incident` (incident.dfy): the fetched incident copy as a class. Its methods are the two closures as the source writes them: literal keys, one if/elif branch on the classified label per tier, and an in-place update. Each method is proved equal to its `Policy` rewrite.
- `Rest` (rest.dfy): the incident store behind `get_put`, as a class with a write log.
- `AddGroup` (add_group.dfy): the component, with its configuration section, channel, handler and status line.

The closures are represented as values of `Policy.Mutation`, one constructor per closure, each holding the captured label and options. `Rest.RestClient.GetPut` fetches a copy of the record, runs the closure on it in place, and stores the copy.

## Model

| member | source | states |
|---|---|---|
| `AddGroup.AddGroupComponent.constructor` | resilientsystems.com/python/add_group/add_group.py:50-57 | options are `opts.get("addgroup1", {})` (`SectionOptions`): the `addgroup1` section, or the empty table when it is missing; the channel is `Channel(options)` |
| `Decimal.IntToString` | resilientsystems.com/python/add_group/add_group.py:85 | `str` of an int starts with `-` exactly when it is negative; what follows the sign is the decimal digits of the magnitude |
| `Policy.MembersFor` | resilientsystems.com/python/add_group/add_group.py:90-102 | members are chosen exactly for the three tiers: 1, 2 or 3 of them, the n-th being the option at the tier's `_member_<n>` key |
| `AddGroup.Channel` | resilientsystems.com/python/add_group/add_group.py:57 | the channel always starts with `actions.` |
| `AddGroup.ChannelNamesQueue` | resilientsystems.com/python/add_group/add_group.py:55-57 | the rest of the channel after `actions.` is `QueueName(options)`, which is `options.get("queue", "addgroup")`; two configurations share a channel exactly when their queue names are equal |
| `AddGroup.DefaultChannel` | resilientsystems.com/python/add_group/add_group.py:55-57 | without a `queue` option the channel is `actions.addgroup`, the same as configuring `queue = addgroup` |
| `AddGroup.AddGroupComponent.HandleAddGroup` | resilientsystems.com/python/add_group/add_group.py:59-109 | the read phase (`ReadRequest`, lines 62-68) fails in source order: no `incident` raises KeyError(`incident`); an `incident` that is not a dict fails; then a missing `id`, then a missing `severity_code`, each a KeyError; a container id cannot be rendered. Each of these fails before any remote call. A missing incident record fails the first call and changes nothing. Otherwise the record at `/incidents/<id>` ends up with the owner rewrite applied and then the members rewrite. Exactly those two writes are sent, in that order, and the result is the status line for that id |
| `AddGroup.StatusAndPathNameIncident` | resilientsystems.com/python/add_group/add_group.py:85-108 | `IncidentPath` (`"/incidents/" + str(inc_id)`, lines 85 and 106) and `Status` (line 108's `.format`) both contain the rendered id whole: it can be read back from the status line and from the resource path |
| `AddGroup.NumericIdsDistinguished` | resilientsystems.com/python/add_group/add_group.py:85-108 | distinct integer ids give distinct status lines and distinct resource paths |
| `AddGroup.StatusExample` | resilientsystems.com/python/add_group/add_group.py:108 | incident 1001 gets exactly `Finished adding users to incident 1001 due to severity change` |
| `Decimal.NatToString` | resilientsystems.com/python/add_group/add_group.py:85 | `str` of a non-negative id is a non-empty string of digits with no leading zero, one character long exactly for values below 10 |
| `Decimal.ParseNatToString` | resilientsystems.com/python/add_group/add_group.py:85 | parsing the digits of a natural number gives the number back |
| `Decimal.ParseIntToString` | resilientsystems.com/python/add_group/add_group.py:85 | parsing `str` of any integer, negative ones included, gives the integer back |
| `Decimal.IntToStringInjective` | resilientsystems.com/python/add_group/add_group.py:85 | two integers have the same `str` exactly when they are equal |
| `Values.RenderNumInjective` | resilientsystems.com/python/add_group/add_group.py:85 | `Render` is `str(inc_id)`: `None` for null, `True`/`False` for booleans, the decimal form for integers, the string itself for strings, nothing for lists and dicts; two integer ids render the same exactly when they are equal |
| `Policy.ClassifyLabel` | resilientsystems.com/python/add_group/add_group.py:68-80 | `Classify` compares the looked-up label with `==`: reading the label back from its classification gives the label itself, so a label classifies as `High`, `Medium` or `Low` only when it is exactly that string |
| `Policy.LabelClassify` | resilientsystems.com/python/add_group/add_group.py:74-80 | every tier, and every other label outside the three names, is what classification gives for its label, so the exact strings `High`, `Medium` and `Low` always select their tier |
| `Policy.MemberValues` | resilientsystems.com/python/add_group/add_group.py:90-102 | the first `n` member values of a tier are the options at keys `<tier>_member_1` to `<tier>_member_n`, in that order |
| `Policy.Assign` | resilientsystems.com/python/add_group/add_group.py:75-81 | writing a field changes that key only; nothing to write leaves the record as it is |
| `Policy.OwnerUpdate` | resilientsystems.com/python/add_group/add_group.py:71-82 | the owner rewrite changes no key other than `owner_id` |
| `Policy.MembersUpdate` | resilientsystems.com/python/add_group/add_group.py:87-103 | the members rewrite changes no key other than `members` |
| `Policy.Mutation.Apply` | resilientsystems.com/python/add_group/add_group.py:71-103 | each closure changes only its own field |
| `Policy.OwnerByTier` | resilientsystems.com/python/add_group/add_group.py:74-81 | `OwnerFor` with `options.get` (`Get`): High, Medium and Low set `owner_id` to the option at `high_owner`, `medium_owner` and `low_owner`; a present key writes its string, a missing key writes `None`, never an error |
| `Policy.MembersByTier` | resilientsystems.com/python/add_group/add_group.py:90-102 | High sets `members` to `[high_member_1]`, Medium to `[medium_member_1, medium_member_2]`, Low to `[low_member_1, low_member_2, low_member_3]`, in that order; a missing key gives a `None` entry |
| `Policy.UnknownLabelIsNoOp` | resilientsystems.com/python/add_group/add_group.py:71-103 | a label other than `High`, `Medium` and `Low` leaves the record unchanged under both rewrites |
| `Policy.WritesIffKnown` | resilientsystems.com/python/add_group/add_group.py:74-102 | after a rewrite the field is present exactly when the label is a tier or the field was already there; a tier's member list has 1, 2 or 3 entries |
| `Policy.OwnerUpdateOverwrites` | resilientsystems.com/python/add_group/add_group.py:74-81 | for a tier, the result does not depend on the owner the record held before |
| `Policy.MembersUpdateOverwrites` | resilientsystems.com/python/add_group/add_group.py:90-102 | for a tier, the result does not depend on the members the record held before |
| `Policy.OwnerUpdateIdempotent` | resilientsystems.com/python/add_group/add_group.py:71-82 | applying the owner rewrite twice equals applying it once |
| `Policy.MembersUpdateIdempotent` | resilientsystems.com/python/add_group/add_group.py:87-103 | applying the members rewrite twice equals applying it once |
| `Policy.UpdatesCommute` | resilientsystems.com/python/add_group/add_group.py:71-103 | the owner and members rewrites commute, for any labels and options |
| `Policy.HandlerEffect` | resilientsystems.com/python/add_group/add_group.py:85-106 | owner first, members second: a tier sets exactly `owner_id` and `members`; any other label leaves the record as it was |
| `Policy.HighExample` | resilientsystems.com/python/add_group/add_group.py:74-91 | label `High` with `high_owner = u1` and `high_member_1 = m1` gives owner `u1` and members `[m1]`, other fields kept |
| `Incident.IncidentCopy.UpdateOwner` | resilientsystems.com/python/add_group/add_group.py:71-82 | the in-place closure, with its literal keys and branches, leaves exactly `Policy.OwnerUpdate` of the old record |
| `Incident.IncidentCopy.UpdateMembers` | resilientsystems.com/python/add_group/add_group.py:87-103 | the in-place closure, with its literal keys and branches, leaves exactly `Policy.MembersUpdate` of the old record |
| `AddGroup.ReadRequestIgnoresMessageKeys` | resilientsystems.com/python/add_group/add_group.py:62 | for every message, changing or adding any top-level key other than `incident` leaves the read phase's outcome unchanged |
| `AddGroup.ReadRequestIgnoresIncidentKeys` | resilientsystems.com/python/add_group/add_group.py:63-68 | when the message's `incident` is a dict, changing or adding any incident key other than `id` and `severity_code` leaves the read phase's outcome unchanged |
| `Incident.IncidentCopy.Apply` | resilientsystems.com/python/add_group/add_group.py:85-106 | `get_put` calling a closure on the fetched copy: the copy ends up as the closure's rewrite of what was fetched |
| `Rest.RestClient.GetPut` | resilientsystems.com/python/add_group/add_group.py:85 | a missing record fails and changes nothing; otherwise the stored record becomes the mutated copy, its other fields kept, and exactly one write is logged |

## Left out

- The REST transport behind `get_put`: HTTP, authentication, and retry on conflict. A call fails only when the record is missing; other remote failures are not modelled.
- `get_field_label`, the platform's lookup from a severity code to its label, is a parameter of the handler (`fieldLabel`).
- The circuits `@handler` and `yield` event delivery, the base component's construction, and reading the configuration file. The configuration arrives as a map of sections. The handler returns the status line instead of yielding it.
- Logging (lines 53 and 69).
- The closures' `return inc`: the fetched copy is changed in place, and the model does not return it again.
- `Values.Render`: `str` of an id that is a list or a dict is not modelled. For such ids the handler fails with `UnrenderableId`, where Python would format the container. Integer, string, `None` and boolean ids are modelled.
- Floating-point numbers: `Values.Value` has no float case, so a record field or id holding a JSON float cannot be represented.
- Configuration values are strings, so `options.get` yields a string or `None`.
- fn_risk_fabric/tests/test_set_event_mitigations.py is a test harness around an opaque function. It has no logic of its own to model.
